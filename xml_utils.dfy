/** `XmlUtils`: character escaping and the three routines that move the
    pull-parser cursor (`skip`, `getTagText`, `parseToString`).

    Each cursor routine is a method on the `Parser` whose result and final
    position are tied to a function over the event sequence; the properties
    the code promises are stated on those functions. */
module XmlUtils {
  import opened Wrappers
  import opened Text
  import opened XmlPull

  // ---------------------------------------------------------------------
  // escape
  // ---------------------------------------------------------------------

  /** The five characters that have predefined entities in XML 1.0 (section 4.6). */
  predicate IsSpecial(c: char)
  {
    c == '<' || c == '>' || c == '&' || c == '\'' || c == '"'
  }

  predicate NoSpecials(s: string)
  {
    forall i :: 0 <= i < |s| ==> !IsSpecial(s[i])
  }

  /** A character-by-character translator: each character of `s`, from the
      left, replaced by what `f` makes of it. */
  function Translate(f: char -> string, s: string): string
  {
    if s == [] then [] else Translate(f, s[..|s| - 1]) + f(s[|s| - 1])
  }

  lemma {:induction false} TranslateAppend(f: char -> string, a: string, b: string)
    ensures Translate(f, a + b) == Translate(f, a) + Translate(f, b)
  {
    if b == [] {
      assert a + b == a;
    } else {
      assert (a + b)[..|a + b| - 1] == a + b[..|b| - 1];
      assert (a + b)[|a + b| - 1] == b[|b| - 1];
      TranslateAppend(f, a, b[..|b| - 1]);
    }
  }

  lemma TranslateSingle(f: char -> string, c: char)
    ensures Translate(f, [c]) == f(c)
  {
    assert [c][..0] == [];
  }

  /** A translator that keeps each character or replaces it by two or more
      leaves `s` alone exactly when it keeps every character of `s`, and
      otherwise lengthens it. */
  lemma {:induction false} TranslateIdentity(f: char -> string, s: string)
    requires forall c :: f(c) == [c] || |f(c)| >= 2
    ensures Translate(f, s) == s <==> forall i :: 0 <= i < |s| ==> f(s[i]) == [s[i]]
    ensures |Translate(f, s)| >= |s|
    ensures (exists i :: 0 <= i < |s| && f(s[i]) != [s[i]]) ==> |Translate(f, s)| > |s|
  {
    if s != [] {
      var t := s[..|s| - 1];
      var c := s[|s| - 1];
      TranslateIdentity(f, t);
      assert s == t + [c];
      assert (forall i :: 0 <= i < |s| ==> f(s[i]) == [s[i]]) <==>
             (forall i :: 0 <= i < |t| ==> f(t[i]) == [t[i]]) && f(c) == [c] by {
        if (forall i :: 0 <= i < |t| ==> f(t[i]) == [t[i]]) && f(c) == [c] {
          forall i | 0 <= i < |s| ensures f(s[i]) == [s[i]] {
            if i < |t| { assert s[i] == t[i]; }
          }
        }
        if forall i :: 0 <= i < |s| ==> f(s[i]) == [s[i]] {
          forall i | 0 <= i < |t| ensures f(t[i]) == [t[i]] { assert t[i] == s[i]; }
        }
      }
      if Translate(f, s) == s {
        assert |Translate(f, t)| + |f(c)| == |t| + 1;
        assert Translate(f, s)[..|Translate(f, t)|] == Translate(f, t);
        assert Translate(f, t) == t && f(c) == [c];
      }
      if exists i :: 0 <= i < |s| && f(s[i]) != [s[i]] {
        var i :| 0 <= i < |s| && f(s[i]) != [s[i]];
        if i < |t| {
          assert t[i] == s[i];
        } else {
          assert |f(c)| > 1;
        }
      }
    }
  }

  /** Two translators that agree on every character of `s` give the same text. */
  lemma {:induction false} TranslateAgree(f: char -> string, g: char -> string, s: string)
    requires forall i :: 0 <= i < |s| ==> f(s[i]) == g(s[i])
    ensures Translate(f, s) == Translate(g, s)
  {
    if s != [] {
      TranslateAgree(f, g, s[..|s| - 1]);
    }
  }

  /** What `escape` appends for one character. */
  function EscapeChar(c: char): string
  {
    match c
    case '<' => "&lt;"
    case '>' => "&gt;"
    case '&' => "&amp;"
    case '\'' => "&apos;"
    case '"' => "&quot;"
    case _ => [c]
  }

  /** The escaped form of `s`. */
  function Escaped(s: string): string
  {
    Translate(EscapeChar, s)
  }

  /** `escape(str)`. */
  method Escape(str: string) returns (res: string)
    ensures res == Escaped(str)
  {
    res := "";
    for i := 0 to |str|
      invariant res == Escaped(str[..i])
    {
      assert str[..i + 1][..i] == str[..i];
      res := res + EscapeChar(str[i]);
    }
    assert str[..|str|] == str;
  }

  /** Each character is escaped on its own, so escaping distributes over concatenation. */
  lemma EscapedAppend(a: string, b: string)
    ensures Escaped(a + b) == Escaped(a) + Escaped(b)
  {
    TranslateAppend(EscapeChar, a, b);
  }

  /** Escaping leaves a string alone exactly when it holds none of the five
      special characters, and otherwise makes it strictly longer. */
  lemma EscapedIdentity(s: string)
    ensures Escaped(s) == s <==> NoSpecials(s)
    ensures |Escaped(s)| >= |s|
    ensures !NoSpecials(s) ==> |Escaped(s)| > |s|
  {
    forall c ensures (EscapeChar(c) == [c] || |EscapeChar(c)| >= 2) && (EscapeChar(c) == [c] <==> !IsSpecial(c)) {
    }
    TranslateIdentity(EscapeChar, s);
  }

  /** A string at the start of which one of the five entities stands. */
  predicate StartsEntity(t: string)
  {
    IsPrefix("&lt;", t) || IsPrefix("&gt;", t) || IsPrefix("&amp;", t) ||
    IsPrefix("&apos;", t) || IsPrefix("&quot;", t)
  }

  /** Safe to put between quotes or in element text: no raw '<', '>', '\'' or
      '"', and every '&' begins one of the five entities. */
  predicate Safe(t: string)
  {
    forall i :: 0 <= i < |t| ==>
      t[i] != '<' && t[i] != '>' && t[i] != '\'' && t[i] != '"' &&
      (t[i] == '&' ==> StartsEntity(t[i..]))
  }

  lemma SafeAppend(x: string, y: string)
    requires Safe(x) && Safe(y)
    ensures Safe(x + y)
  {
    forall i | 0 <= i < |x + y| && (x + y)[i] == '&'
      ensures StartsEntity((x + y)[i..])
    {
      if i < |x| {
        assert (x + y)[i..] == x[i..] + y;
        assert x[i] == '&';
        assert StartsEntity(x[i..]);
      } else {
        assert (x + y)[i..] == y[i - |x|..];
        assert y[i - |x|] == '&';
      }
    }
  }

  lemma {:induction false} TranslateSafe(f: char -> string, s: string)
    requires forall c :: Safe(f(c))
    ensures Safe(Translate(f, s))
  {
    if s != [] {
      TranslateSafe(f, s[..|s| - 1]);
      SafeAppend(Translate(f, s[..|s| - 1]), f(s[|s| - 1]));
    }
  }

  lemma EscapeCharSafe(c: char)
    ensures Safe(EscapeChar(c))
  {
    var e := EscapeChar(c);
    if c == '&' { assert e[0..] == "&amp;"; }
    else if c == '<' { assert e[0..] == "&lt;"; }
    else if c == '>' { assert e[0..] == "&gt;"; }
    else if c == '\'' { assert e[0..] == "&apos;"; }
    else if c == '"' { assert e[0..] == "&quot;"; }
  }

  /** The output of `escape` is safe. */
  lemma EscapedIsSafe(s: string)
    ensures Safe(Escaped(s))
  {
    forall c ensures Safe(EscapeChar(c)) {
      EscapeCharSafe(c);
    }
    TranslateSafe(EscapeChar, s);
  }

  /** The entity standing at the start of `t`, if any: the character it
      stands for and its length. */
  function EntityAt(t: string): Option<(char, nat)>
  {
    if IsPrefix("&lt;", t) then Some(('<', 4))
    else if IsPrefix("&gt;", t) then Some(('>', 4))
    else if IsPrefix("&amp;", t) then Some(('&', 5))
    else if IsPrefix("&apos;", t) then Some(('\'', 6))
    else if IsPrefix("&quot;", t) then Some(('"', 6))
    else None
  }

  /** What an XML reader makes of escaped text: the five entities decoded. */
  function Unescaped(t: string): string
  {
    if t == [] then []
    else
      match EntityAt(t)
      case Some((ch, n)) => if n <= |t| then [ch] + Unescaped(t[n..]) else []
      case None => [t[0]] + Unescaped(t[1..])
  }

  lemma EntityAtEscapeChar(c: char, rest: string)
    ensures EntityAt(EscapeChar(c) + rest) ==
            if IsSpecial(c) then Some((c, |EscapeChar(c)|)) else None
  {
    var t := EscapeChar(c) + rest;
    if c == '<' {
      assert t[..4] == "&lt;";
    } else if c == '>' {
      assert t[..4] == "&gt;" && t[1] == 'g';
    } else if c == '&' {
      assert t[..5] == "&amp;" && t[1] == 'a' && t[2] == 'm';
    } else if c == '\'' {
      assert t[..6] == "&apos;" && t[1] == 'a' && t[2] == 'p';
    } else if c == '"' {
      assert t[..6] == "&quot;" && t[1] == 'q';
    } else {
      assert t[0] == c;
    }
  }

  lemma UnescapedCons(c: char, rest: string)
    ensures Unescaped(EscapeChar(c) + rest) == [c] + Unescaped(rest)
  {
    var t := EscapeChar(c) + rest;
    EntityAtEscapeChar(c, rest);
    assert t[|EscapeChar(c)|..] == rest;
    if !IsSpecial(c) {
      assert t[1..] == rest;
    }
  }

  /** Reading escaped text back gives the original string: escaping loses nothing. */
  lemma {:induction false} UnescapedEscaped(s: string)
    ensures Unescaped(Escaped(s)) == s
  {
    if s != [] {
      EscapedAppend([s[0]], s[1..]);
      assert [s[0]] + s[1..] == s;
      TranslateSingle(EscapeChar, s[0]);
      UnescapedCons(s[0], Escaped(s[1..]));
      UnescapedEscaped(s[1..]);
    }
  }

  /** A character XML 1.0 cannot carry at all: a control character other
      than tab, line feed and carriage return, or one of U+FFFE and U+FFFF. */
  predicate Forbidden(c: char)
  {
    (c < ' ' && c != '\t' && c != '\n' && c != '\r') || c == '\U{FFFE}' || c == '\U{FFFF}'
  }

  /** `StringEscapeUtils.escapeXml10` (Apache Commons Text), used by Presence and
      DiscoInfo: the five entities, the control characters XML 1.0 forbids
      removed, and U+007F..U+0084, U+0086..U+009F as decimal character references. */
  function EscapeXml10Char(c: char): string
  {
    if IsSpecial(c) then EscapeChar(c)
    else if Forbidden(c) then ""
    else if ('\U{7F}' <= c <= '\U{84}') || ('\U{86}' <= c <= '\U{9F}') then "&#" + NatToString(c as int) + ";"
    else [c]
  }

  function EscapedXml10(s: string): string
  {
    Translate(EscapeXml10Char, s)
  }

  /** Printable text: none of the characters `escapeXml10` removes or turns into references. */
  predicate Printable(c: char)
  {
    (c >= ' ' || c == '\t' || c == '\n' || c == '\r') &&
    c != '\U{FFFE}' && c != '\U{FFFF}' && !('\U{7F}' <= c <= '\U{9F}')
  }

  /** On printable text the two escapers agree. */
  lemma EscapedXml10OfPrintable(s: string)
    requires forall i :: 0 <= i < |s| ==> Printable(s[i])
    ensures EscapedXml10(s) == Escaped(s)
  {
    TranslateAgree(EscapeXml10Char, EscapeChar, s);
  }

  /** `escapeXml10` removes what XML 1.0 cannot carry: a forbidden character,
      wherever it stands, leaves no trace in the output. */
  lemma EscapedXml10DropsControl(a: string, c: char, b: string)
    requires Forbidden(c)
    ensures EscapedXml10(a + [c] + b) == EscapedXml10(a + b)
  {
    TranslateAppend(EscapeXml10Char, a + [c], b);
    TranslateAppend(EscapeXml10Char, a, [c]);
    TranslateSingle(EscapeXml10Char, c);
    TranslateAppend(EscapeXml10Char, a, b);
  }

  // ---------------------------------------------------------------------
  // what a reader reports for written text
  // ---------------------------------------------------------------------

  /** One attribute in single quotes with its value escaped: the form whose
      value an XML reader reports back, entities decoded. */
  function QuotedAttr(a: Attr): string
  {
    " " + a.name + "='" + Escaped(a.value) + "'"
  }

  /** A character an attribute value keeps when read: printable, and not one
      of the white-space characters that attribute-value normalization
      (section 3.3.3 of XML 1.0) turns into spaces. */
  predicate AttrChar(c: char)
  {
    Printable(c) && c != '\t' && c != '\n' && c != '\r'
  }

  predicate AttrText(s: string)
  {
    forall i :: 0 <= i < |s| ==> AttrChar(s[i])
  }

  /** Text content a reader reports unchanged: printable, and without the
      carriage returns that end-of-line handling (section 2.11 of XML 1.0)
      rewrites. */
  predicate ContentText(s: string)
  {
    forall i :: 0 <= i < |s| ==> Printable(s[i]) && s[i] != '\r'
  }

  /** An attribute value `escapeXml10` writes is the escaped value. */
  lemma EscapedXml10OfAttrText(s: string)
    requires AttrText(s)
    ensures EscapedXml10(s) == Escaped(s)
  {
    EscapedXml10OfPrintable(s);
  }

  /** The text `escapeXml10` writes for content text decodes to that text. */
  lemma ContentTextReadBack(s: string)
    requires ContentText(s)
    ensures Unescaped(EscapedXml10(s)) == s
  {
    EscapedXml10OfPrintable(s);
    UnescapedEscaped(s);
  }

  // ---------------------------------------------------------------------
  // skip
  // ---------------------------------------------------------------------

  /** Where the loop of `skip` stops: on the end tag named `tag`, or on any
      event without a name (text, end of document), since the loop tests
      `getName() != null` before every step. */
  predicate Stops(e: Event, tag: string)
  {
    e == EndTag(tag) || NameOf(e).None?
  }

  function SkipFrom(events: seq<Event>, tag: string, i: nat): (r: Result<nat>)
    requires i < |events|
    ensures r.Ok? ==> i < r.value < |events| && Stops(events[r.value], tag)
    decreases |events| - i
  {
    match Step(events, i)
    case Err(f) => Err(f)
    case Ok(j) => if Stops(events[j], tag) then Ok(j) else SkipFrom(events, tag, j)
  }

  /** Where `skip` called at `pos` leaves the cursor. Nothing moves when the
      current event has no name; otherwise the cursor stops on the first later
      end tag with the starting tag's name, without counting depth, or earlier
      on the first event without a name. */
  function SkipEnd(events: seq<Event>, pos: nat): (r: Result<nat>)
    requires pos < |events|
    ensures NameOf(events[pos]).None? ==> r == Ok(pos)
    ensures NameOf(events[pos]).Some? && r.Ok? ==>
      pos < r.value < |events| && Stops(events[r.value], NameOf(events[pos]).value)
  {
    match NameOf(events[pos])
    case None => Ok(pos)
    case Some(tag) => SkipFrom(events, tag, pos)
  }

  /** `SkipFrom` stops on the first event that stops it. */
  lemma {:induction false} SkipFromFirst(events: seq<Event>, tag: string, i: nat)
    requires i < |events| && SkipFrom(events, tag, i).Ok?
    ensures forall m :: i < m < SkipFrom(events, tag, i).value ==> !Stops(events[m], tag)
    decreases |events| - i
  {
    var j := i + 1;
    if !Stops(events[j], tag) {
      SkipFromFirst(events, tag, j);
    }
  }

  /** `skip` passes over no end tag of the starting tag's name and over no
      event without a name: nesting is not counted. */
  lemma SkipEndFirst(events: seq<Event>, pos: nat)
    requires pos < |events| && NameOf(events[pos]).Some? && SkipEnd(events, pos).Ok?
    ensures var tag := NameOf(events[pos]).value;
      forall m :: pos < m < SkipEnd(events, pos).value ==> events[m] != EndTag(tag) && NameOf(events[m]).Some?
  {
    SkipFromFirst(events, NameOf(events[pos]).value, pos);
  }

  /** `skip(parser)`. */
  method Skip(p: Parser) returns (r: Outcome)
    requires p.Valid()
    modifies p
    ensures p.Valid() && p.events == old(p.events) && old(p.pos) <= p.pos
    ensures SkipEnd(p.events, old(p.pos)) == if r.Pass? then Ok(p.pos) else Err(r.failure)
  {
    var tag := p.Name();
    if tag.None? {
      return Pass;
    }
    while true
      invariant p.Valid() && p.events == old(p.events) && old(p.pos) <= p.pos
      invariant SkipFrom(p.events, tag.value, p.pos) == SkipEnd(p.events, old(p.pos))
      decreases |p.events| - p.pos
    {
      var e := p.Next();
      if e.Err? {
        return Fail(e.failure);
      }
      if Stops(p.Current(), tag.value) {
        return Pass;
      }
    }
  }

  // ---------------------------------------------------------------------
  // getTagText
  // ---------------------------------------------------------------------

  /** The first position from `i` on that holds the end tag named `tag`;
      with no name to look for, the scan only ends by an exception. */
  function EndTagFrom(events: seq<Event>, tag: Option<string>, i: nat): (r: Result<nat>)
    requires i < |events|
    ensures r.Ok? ==> tag.Some? && i <= r.value < |events| && events[r.value] == EndTag(tag.value)
    decreases |events| - i
  {
    if tag.Some? && events[i] == EndTag(tag.value) then Ok(i)
    else
      match Step(events, i)
      case Err(f) => Err(f)
      case Ok(j) => EndTagFrom(events, tag, j)
  }

  /** `EndTagFrom` stops on the first end tag with the name. */
  lemma {:induction false} EndTagFromFirst(events: seq<Event>, tag: Option<string>, i: nat)
    requires i < |events| && EndTagFrom(events, tag, i).Ok?
    ensures forall m :: i <= m < EndTagFrom(events, tag, i).value ==> events[m] != EndTag(tag.value)
    decreases |events| - i
  {
    if !(tag.Some? && events[i] == EndTag(tag.value)) {
      EndTagFromFirst(events, tag, i + 1);
    }
  }

  /** What `getTagText` at `pos` returns and where it leaves the cursor: the
      text of the event right after the tag ("" if that event is not text),
      and the first later end tag with the tag's own name. */
  function TagText(events: seq<Event>, pos: nat): (r: Result<(string, nat)>)
    requires pos < |events|
    ensures r.Ok? ==>
      NameOf(events[pos]).Some? && pos < r.value.1 < |events| &&
      events[r.value.1] == EndTag(NameOf(events[pos]).value) &&
      r.value.0 == if events[pos + 1].Text? then events[pos + 1].text else ""
  {
    match Step(events, pos)
    case Err(f) => Err(f)
    case Ok(j) =>
      match EndTagFrom(events, NameOf(events[pos]), j)
      case Err(f) => Err(f)
      case Ok(k) => Ok((if events[j].Text? then events[j].text else "", k))
  }

  /** `getTagText` leaves the cursor on the first end tag with the tag's name. */
  lemma TagTextFirst(events: seq<Event>, pos: nat)
    requires pos < |events| && TagText(events, pos).Ok?
    ensures forall m :: pos < m < TagText(events, pos).value.1 ==> events[m] != EndTag(NameOf(events[pos]).value)
  {
    EndTagFromFirst(events, NameOf(events[pos]), pos + 1);
  }

  /** `getTagText(parser)`. */
  method GetTagText(p: Parser) returns (r: Result<string>)
    requires p.Valid()
    modifies p
    ensures p.Valid() && p.events == old(p.events) && old(p.pos) <= p.pos
    ensures TagText(p.events, old(p.pos)) == if r.Ok? then Ok((r.value, p.pos)) else Err(r.failure)
  {
    var ret := "";
    var tag := p.Name();
    var n := p.Next();
    if n.Err? {
      return Err(n.failure);
    }
    if p.Current().Text? {
      ret := p.Current().text;
    }
    while !(tag.Some? && p.Current() == EndTag(tag.value))
      invariant p.Valid() && p.events == old(p.events) && old(p.pos) < p.pos
      invariant EndTagFrom(p.events, tag, p.pos) == EndTagFrom(p.events, tag, old(p.pos) + 1)
      decreases |p.events| - p.pos
    {
      n := p.Next();
      if n.Err? {
        return Err(n.failure);
      }
    }
    return Ok(ret);
  }

  // ---------------------------------------------------------------------
  // parseToString
  // ---------------------------------------------------------------------

  /** Whether `parseToString` writes attribute `a`: never a name holding ':',
      and no `xmlns` when the namespace is being left out. */
  predicate Emitted(a: Attr, skipXmlns: bool)
  {
    (!skipXmlns || a.name != "xmlns") && ':' !in a.name
  }

  function AttrXml(a: Attr): string
  {
    " " + a.name + "=\"" + Escaped(a.value) + "\""
  }

  /** The attribute text of the opening tag, in document order. */
  function AttrsXml(attrs: seq<Attr>, skipXmlns: bool): string
  {
    if attrs == [] then ""
    else
      AttrsXml(attrs[..|attrs| - 1], skipXmlns) +
      (if Emitted(attrs[|attrs| - 1], skipXmlns) then AttrXml(attrs[|attrs| - 1]) else "")
  }

  /** The attributes that survive the filter, in document order. */
  function EmittedAttrs(attrs: seq<Attr>, skipXmlns: bool): (r: seq<Attr>)
    ensures forall a :: a in r <==> a in attrs && Emitted(a, skipXmlns)
  {
    if attrs == [] then []
    else
      var rest := EmittedAttrs(attrs[..|attrs| - 1], skipXmlns);
      var a := attrs[|attrs| - 1];
      assert attrs == attrs[..|attrs| - 1] + [a];
      if Emitted(a, skipXmlns) then rest + [a] else rest
  }

  function Join(attrs: seq<Attr>): string
  {
    if attrs == [] then "" else Join(attrs[..|attrs| - 1]) + AttrXml(attrs[|attrs| - 1])
  }

  lemma {:induction false} JoinAppend(xs: seq<Attr>, a: Attr)
    ensures Join(xs + [a]) == Join(xs) + AttrXml(a)
  {
    assert (xs + [a])[..|xs + [a]| - 1] == xs;
  }

  /** The attribute text is exactly the surviving attributes, each with its value escaped. */
  lemma {:induction false} AttrsXmlIsEmitted(attrs: seq<Attr>, skipXmlns: bool)
    ensures AttrsXml(attrs, skipXmlns) == Join(EmittedAttrs(attrs, skipXmlns))
  {
    if attrs != [] {
      AttrsXmlIsEmitted(attrs[..|attrs| - 1], skipXmlns);
      var a := attrs[|attrs| - 1];
      if Emitted(a, skipXmlns) {
        JoinAppend(EmittedAttrs(attrs[..|attrs| - 1], skipXmlns), a);
      }
    }
  }

  /** The opening tag `parseToString` writes for a start tag. */
  function OpenTag(e: Event, skipXmlns: bool): string
    requires e.StartTag?
  {
    "<" + e.name
    + (if !skipXmlns && e.ns != "" then " xmlns=\"" + e.ns + "\"" else "")
    + AttrsXml(e.attrs, skipXmlns) + ">"
  }

  lemma PrefixTrans(a: string, b: string, c: string)
    requires IsPrefix(a, b) && IsPrefix(b, c)
    ensures IsPrefix(a, c)
  {
    assert c[..|a|] == c[..|b|][..|a|];
  }

  /** What `parseToString` at `pos` returns, and where it leaves the cursor. */
  function Render(events: seq<Event>, pos: nat, skipXmlns: bool): (r: Result<(string, nat)>)
    requires pos < |events| && events[pos].StartTag?
    ensures r.Ok? ==> pos < r.value.1 < |events| && events[r.value.1] == EndTag(events[pos].name)
    ensures r.Ok? ==> IsPrefix(OpenTag(events[pos], skipXmlns), r.value.0)
    ensures r.Ok? ==> EndsWith(r.value.0, "</" + events[pos].name + ">")
    decreases |events| - pos, 1
  {
    RenderBody(events, events[pos].name, pos, OpenTag(events[pos], skipXmlns))
  }

  /** The loop of `parseToString`: `acc` is what has been written so far. Nested
      start tags are written by a nested call with the namespace kept, or
      skipped when their name holds ':'; text is escaped; anything else is dropped. */
  function RenderBody(events: seq<Event>, tag: string, i: nat, acc: string): (r: Result<(string, nat)>)
    requires i < |events|
    ensures r.Ok? ==> i < r.value.1 < |events| && events[r.value.1] == EndTag(tag)
    ensures r.Ok? ==> IsPrefix(acc, r.value.0) && EndsWith(r.value.0, "</" + tag + ">")
    decreases |events| - i, 0
  {
    match Step(events, i)
    case Err(f) => Err(f)
    case Ok(j) =>
      var e := events[j];
      if e == EndTag(tag) then
        assert IsPrefix(acc, acc + "</" + tag + ">");
        Ok((acc + "</" + tag + ">", j))
      else if e.StartTag? then
        if ':' in e.name then
          match SkipEnd(events, j)
          case Err(f) => Err(f)
          case Ok(k) => RenderBody(events, tag, k, acc)
        else
          match Render(events, j, false)
          case Err(f) => Err(f)
          case Ok((s, k)) =>
            var r := RenderBody(events, tag, k, acc + s);
            if r.Ok? then PrefixTrans(acc, acc + s, r.value.0); r else r
      else if e.Text? then
        var r := RenderBody(events, tag, j, acc + Escaped(e.text));
        if r.Ok? then PrefixTrans(acc, acc + Escaped(e.text), r.value.0); r else r
      else RenderBody(events, tag, j, acc)
  }

  lemma AttrsXmlStep(attrs: seq<Attr>, i: nat, skipXmlns: bool)
    requires i < |attrs|
    ensures AttrsXml(attrs[..i + 1], skipXmlns) ==
            AttrsXml(attrs[..i], skipXmlns) + (if Emitted(attrs[i], skipXmlns) then AttrXml(attrs[i]) else "")
  {
    assert attrs[..i + 1][..i] == attrs[..i];
  }

  /** The opening tag, written as the first part of `parseToString` writes it. */
  method WriteOpenTag(e: Event, skipXmlns: bool) returns (ret: string)
    requires e.StartTag?
    ensures ret == OpenTag(e, skipXmlns)
  {
    ret := "<" + e.name;
    if !skipXmlns && e.ns != "" {
      ret := ret + " xmlns=\"" + e.ns + "\"";
    }
    var attrs := "";
    for i := 0 to |e.attrs|
      invariant attrs == AttrsXml(e.attrs[..i], skipXmlns)
    {
      var a := e.attrs[i];
      AttrsXmlStep(e.attrs, i, skipXmlns);
      if Emitted(a, skipXmlns) {
        var v := Escape(a.value);
        var piece := " " + a.name + "=\"" + v + "\"";
        assert piece == AttrXml(a);
        attrs := attrs + piece;
      }
    }
    assert e.attrs[..|e.attrs|] == e.attrs;
    ret := ret + attrs + ">";
  }

  /** `parseToString(parser, skipXMLNS)`, called on a start tag. */
  method ParseToString(p: Parser, skipXmlns: bool) returns (r: Result<string>)
    requires p.Valid() && p.Current().StartTag?
    modifies p
    ensures p.Valid() && p.events == old(p.events) && old(p.pos) <= p.pos
    ensures Render(p.events, old(p.pos), skipXmlns) == if r.Ok? then Ok((r.value, p.pos)) else Err(r.failure)
    decreases |p.events| - p.pos
  {
    var e := p.Current();
    var tag := e.name;
    var ret := WriteOpenTag(e, skipXmlns);
    while true
      invariant p.Valid() && p.events == old(p.events) && old(p.pos) <= p.pos
      invariant RenderBody(p.events, tag, p.pos, ret) == Render(p.events, old(p.pos), skipXmlns)
      decreases |p.events| - p.pos
    {
      var n := p.Next();
      if n.Err? {
        return Err(n.failure);
      }
      var cur := p.Current();
      if cur == EndTag(tag) {
        ret := ret + "</" + tag + ">";
        return Ok(ret);
      }
      if cur.StartTag? {
        if ':' in cur.name {
          var s := Skip(p);
          if s.Fail? {
            return Err(s.failure);
          }
        } else {
          var sub := ParseToString(p, false);
          if sub.Err? {
            return Err(sub.failure);
          }
          ret := ret + sub.value;
        }
      } else if cur.Text? {
        var t := Escape(cur.text);
        ret := ret + t;
      }
    }
  }
}
