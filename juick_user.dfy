/** The `user` extension (namespace `http://juick.com/user`): a Juick user id
    and name carried as attributes of one empty element. */
module JuickUsers {
  import opened Wrappers
  import opened Text
  import opened XmlPull
  import opened XmlUtils

  const Xmlns: string := "http://juick.com/user"
  const TagName: string := "user"
  /** The opening of the element, up to its first attribute. */
  const Opening: string := "<" + TagName + " xmlns='" + Xmlns + "'"

  /** The part of `com.juick.User` the extension carries: the numeric id
      (0 when unset) and the name (null when unset). */
  datatype JuickUser = JuickUser(uid: Int32, uname: Option<string>)

  /** `toString(user)`: the empty element, with `uid` only for a positive id
      and `uname` (escaped) only for a non-empty name. */
  function ToXml(u: JuickUser): (r: string)
    ensures IsPrefix(Opening, r) && EndsWith(r, "/>")
  {
    var head := Opening;
    var attrs := UidText(u) + NameText(u);
    PrefixOfConcat(head, attrs + "/>");
    SuffixOfConcat(head + attrs, "/>");
    assert head + attrs + "/>" == head + (attrs + "/>");
    head + attrs + "/>"
  }

  function UidText(u: JuickUser): string
  {
    if u.uid > 0 then " uid='" + IntToString(u.uid) + "'" else ""
  }

  function NameText(u: JuickUser): string
  {
    if u.uname.Some? && |u.uname.value| > 0 then " uname='" + Escaped(u.uname.value) + "'" else ""
  }

  function UidAttrs(u: JuickUser): seq<Attr>
  {
    if u.uid > 0 then [Attr("uid", IntToString(u.uid))] else []
  }

  function NameAttrs(u: JuickUser): seq<Attr>
  {
    if u.uname.Some? && |u.uname.value| > 0 then [Attr("uname", u.uname.value)] else []
  }

  /** The attributes an XML reader reports for the element `ToXml(u)` writes,
      with the entities in `uname` already decoded. */
  function WrittenAttrs(u: JuickUser): seq<Attr>
  {
    UidAttrs(u) + NameAttrs(u)
  }

  /** The events an XML reader reports for the element `ToXml(u)` writes. */
  function WrittenEvents(u: JuickUser): seq<Event>
  {
    [StartTag(TagName, Xmlns, WrittenAttrs(u), []), EndTag(TagName)]
  }

  /** What survives writing and reading back: a non-positive id reads back
      as 0 (unset), an empty name as null. */
  function Normalize(u: JuickUser): JuickUser
  {
    JuickUser(if u.uid > 0 then u.uid else 0,
              if u.uname == Some("") then None else u.uname)
  }

  /** The user `parse` builds from the attributes of the start tag: the id
      through `Integer.parseInt` when present, the name verbatim. */
  function FromAttrs(attrs: seq<Attr>): (r: Result<JuickUser>)
    ensures Lookup(attrs, "uid").None? ==> r == Ok(JuickUser(0, Lookup(attrs, "uname")))
    ensures Lookup(attrs, "uid").Some? ==>
      match ParseInt(Lookup(attrs, "uid").value)
      case Some(v) => r == Ok(JuickUser(v, Lookup(attrs, "uname")))
      case None => r == Err(BadNumber(Lookup(attrs, "uid").value))
  {
    var uname := Lookup(attrs, "uname");
    match Lookup(attrs, "uid")
    case None => Ok(JuickUser(0, uname))
    case Some(s) =>
      match ParseInt(s)
      case None => Err(BadNumber(s))
      case Some(v) => Ok(JuickUser(v, uname))
  }

  /** What `parse` at a start tag returns, and where it leaves the cursor. */
  function ParseUser(events: seq<Event>, pos: nat): (r: Result<(JuickUser, nat)>)
    requires pos < |events| && events[pos].StartTag?
    ensures r.Ok? ==> FromAttrs(events[pos].attrs) == Ok(r.value.0)
    ensures r.Ok? ==> SkipEnd(events, pos) == Ok(r.value.1)
  {
    match FromAttrs(events[pos].attrs)
    case Err(f) => Err(f)
    case Ok(u) =>
      match SkipEnd(events, pos)
      case Err(f) => Err(f)
      case Ok(k) => Ok((u, k))
  }

  /** `parse(parser)`, called on the extension's start tag. */
  method Parse(p: Parser) returns (r: Result<JuickUser>)
    requires p.Valid() && p.Current().StartTag?
    modifies p
    ensures p.Valid() && p.events == old(p.events)
    ensures ParseUser(p.events, old(p.pos)) == if r.Ok? then Ok((r.value, p.pos)) else Err(r.failure)
  {
    var uid: Int32 := 0;
    var strUid := AttrOf(p.Current(), "uid");
    if strUid.Some? {
      var v := ParseInt(strUid.value);
      if v.None? {
        return Err(BadNumber(strUid.value));
      }
      uid := v.value;
    }
    var uname := AttrOf(p.Current(), "uname");
    var s := Skip(p);
    if s.Fail? {
      return Err(s.failure);
    }
    return Ok(JuickUser(uid, uname));
  }

  lemma LookupWritten(u: JuickUser)
    requires InInt32(u.uid)
    ensures Lookup(WrittenAttrs(u), "uid") == if u.uid > 0 then Some(IntToString(u.uid)) else None
    ensures Lookup(WrittenAttrs(u), "uname") == if u.uname.Some? && |u.uname.value| > 0 then u.uname else None
  {
    var a := WrittenAttrs(u);
    if u.uid > 0 && u.uname.Some? && |u.uname.value| > 0 {
      assert a[1..] == [Attr("uname", u.uname.value)];
    }
  }

  /** `toString` writes the element as its opening, the attributes of
      `WrittenAttrs` quoted one after the other, and `/>`: the id is all
      digits, so escaping would leave it alone. A name that attribute-value
      normalization keeps makes every written value one a reader reports
      unchanged. */
  lemma ToXmlIsQuoted(u: JuickUser)
    requires u.uname.Some? ==> AttrText(u.uname.value)
    ensures ToXml(u) == Opening + Concat(QuotedAttr, WrittenAttrs(u)) + "/>"
    ensures forall k :: 0 <= k < |WrittenAttrs(u)| ==> AttrText(WrittenAttrs(u)[k].value)
  {
    UidQuoted(u);
    NameQuoted(u);
    ConcatAppend(QuotedAttr, UidAttrs(u), NameAttrs(u));
    var w := WrittenAttrs(u);
    forall k | 0 <= k < |w| ensures AttrText(w[k].value) {
      if k < |UidAttrs(u)| {
        assert w[k] == UidAttrs(u)[k];
      } else {
        assert w[k] == NameAttrs(u)[k - |UidAttrs(u)|];
      }
    }
  }

  /** A positive id is written as its quoted decimal digits. */
  lemma UidQuoted(u: JuickUser)
    ensures Concat(QuotedAttr, UidAttrs(u)) == UidText(u)
    ensures forall k :: 0 <= k < |UidAttrs(u)| ==> AttrText(UidAttrs(u)[k].value)
  {
    if u.uid > 0 {
      var d := IntToString(u.uid);
      DigitsPlain(d, u.uid);
      ConcatSingle(QuotedAttr, Attr("uid", d));
      QuotedVerbatim("uid", d);
      Prefix3(" ", "uid", "='", " uid='", d + "'");
    }
  }

  lemma NameQuoted(u: JuickUser)
    requires u.uname.Some? ==> AttrText(u.uname.value)
    ensures Concat(QuotedAttr, NameAttrs(u)) == NameText(u)
    ensures forall k :: 0 <= k < |NameAttrs(u)| ==> AttrText(NameAttrs(u)[k].value)
  {
    if u.uname.Some? && |u.uname.value| > 0 {
      var n := u.uname.value;
      ConcatSingle(QuotedAttr, Attr("uname", n));
      assert QuotedAttr(Attr("uname", n)) == " " + "uname" + "='" + Escaped(n) + "'";
      Prefix3(" ", "uname", "='", " uname='", Escaped(n) + "'");
    }
  }

  lemma QuotedVerbatim(name: string, v: string)
    requires Escaped(v) == v
    ensures QuotedAttr(Attr(name, v)) == " " + name + "='" + v + "'"
  {
  }

  lemma DigitsPlain(d: string, uid: Int32)
    requires uid > 0 && d == IntToString(uid)
    ensures Escaped(d) == d && AttrText(d)
  {
    NatToStringDigits(uid);
    assert AllDigits(d);
    assert NoSpecials(d) by {
      forall i | 0 <= i < |d| ensures !IsSpecial(d[i]) {
        assert IsDigit(d[i]);
      }
    }
    EscapedIdentity(d);
    forall i | 0 <= i < |d| ensures AttrChar(d[i]) {
      assert IsDigit(d[i]);
    }
  }

  lemma Prefix3(x: string, y: string, z: string, xyz: string, rest: string)
    requires xyz == x + y + z
    ensures x + y + z + rest == xyz + rest
  {
  }

  /** Reading back what `toString` writes gives the same user, up to the
      normalisation of an unset id and an empty name. */
  lemma ParseWritten(u: JuickUser, events: seq<Event>, pos: nat)
    requires pos + 1 < |events| && events[pos..pos + 2] == WrittenEvents(u)
    ensures ParseUser(events, pos) == Ok((Normalize(u), pos + 1))
  {
    assert events[pos] == WrittenEvents(u)[0];
    assert events[pos + 1] == EndTag(TagName);
    LookupWritten(u);
    if u.uid > 0 {
      ParseIntOfIntToString(u.uid);
    }
    assert Step(events, pos) == Ok(pos + 1);
  }
}
