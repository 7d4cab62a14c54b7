/** The service-discovery information extension of XEP-0030 (namespace
    `http://jabber.org/protocol/disco#info`): identities and features. */
module DiscoInfos {
  import opened Wrappers
  import opened Text
  import opened XmlPull
  import opened XmlUtils

  const Xmlns: string := "http://jabber.org/protocol/disco#info"
  const TagName: string := "query"

  /** `DiscoInfo.Identity`: each attribute may be null. */
  datatype Identity = Identity(category: Option<string>, identityType: Option<string>, name: Option<string>)

  /** `Identity.toString()`: only the non-null attributes, and only `name`
      passed through `escapeXml10`. */
  function IdentityXml(i: Identity): string
  {
    "<identity"
    + (if i.category.Some? then " category='" + i.category.value + "'" else "")
    + (if i.identityType.Some? then " type='" + i.identityType.value + "'" else "")
    + (if i.name.Some? then " name='" + EscapedXml10(i.name.value) + "'" else "")
    + "/>"
  }

  /** One feature as `toString` writes it; a null feature prints as "null". */
  function FeatureXml(f: Option<string>): string
  {
    "<feature var='" + OrNull(f) + "'/>"
  }

  const Opening: string := "<" + TagName + " xmlns='" + Xmlns + "'>"
  const Closing: string := "</" + TagName + ">"

  /** What `toString` writes: all identities in order, then all features in order. */
  function QueryXml(identities: seq<Identity>, features: seq<Option<string>>): string
  {
    Opening + Concat(IdentityXml, identities) + Concat(FeatureXml, features) + Closing
  }

  class DiscoInfo {
    var identities: seq<Identity>
    var features: seq<Option<string>>

    constructor ()
      ensures identities == [] && features == []
    {
      identities := [];
      features := [];
    }

    /** `addIdentity(category, type, name)`. */
    method AddIdentity(category: Option<string>, identityType: Option<string>, name: Option<string>)
      modifies this`identities
      ensures identities == old(identities) + [Identity(category, identityType, name)]
    {
      identities := identities + [Identity(category, identityType, name)];
    }

    /** `addFeature(feature)`. */
    method AddFeature(feature: Option<string>)
      modifies this`features
      ensures features == old(features) + [feature]
    {
      features := features + [feature];
    }

    /** `toString()`. */
    method ToString() returns (s: string)
      ensures s == QueryXml(identities, features)
    {
      var ids := WriteIdentities(identities);
      var feats := WriteFeatures(features);
      s := Opening + ids + feats + Closing;
    }
  }

  /** The loop of `toString` over the identities, in order. */
  method WriteIdentities(identities: seq<Identity>) returns (s: string)
    ensures s == Concat(IdentityXml, identities)
  {
    s := "";
    for k := 0 to |identities|
      invariant s == Concat(IdentityXml, identities[..k])
    {
      ConcatStep(IdentityXml, identities, k);
      s := s + IdentityXml(identities[k]);
    }
    assert identities[..|identities|] == identities;
  }

  /** The loop of `toString` over the features, in order. */
  method WriteFeatures(features: seq<Option<string>>) returns (s: string)
    ensures s == Concat(FeatureXml, features)
  {
    s := "";
    for k := 0 to |features|
      invariant s == Concat(FeatureXml, features[..k])
    {
      ConcatStep(FeatureXml, features, k);
      s := s + FeatureXml(features[k]);
    }
    assert features[..|features|] == features;
  }

  // ---------------------------------------------------------------------
  // parse
  // ---------------------------------------------------------------------

  /** The identity an `identity` start tag describes. */
  function IdentityOf(e: Event): Identity
    requires e.StartTag?
  {
    Identity(AttrOf(e, "category"), AttrOf(e, "type"), AttrOf(e, "name"))
  }

  /** The loop of `parse` as written: it runs while `next()` reports a start
      tag, so the first event of any other kind ends it, the end tag of a
      self-closing `identity` or `feature` included. */
  function LoopAsWritten(events: seq<Event>, i: nat, ids: seq<Identity>, feats: seq<Option<string>>)
    : (r: Result<(seq<Identity>, seq<Option<string>>, nat)>)
    requires i < |events|
    ensures r.Ok? ==> i < r.value.2 < |events| && !events[r.value.2].StartTag?
    decreases |events| - i
  {
    match Step(events, i)
    case Err(f) => Err(f)
    case Ok(j) =>
      var e := events[j];
      if !e.StartTag? then Ok((ids, feats, j))
      else if e.name == "identity" then LoopAsWritten(events, j, ids + [IdentityOf(e)], feats)
      else if e.name == "feature" then LoopAsWritten(events, j, ids, feats + [AttrOf(e, "var")])
      else
        match SkipEnd(events, j)
        case Err(f) => Err(f)
        case Ok(k) => LoopAsWritten(events, k, ids, feats)
  }

  /** `parse` as written, called on the `query` start tag. */
  function ParseQueryAsWritten(events: seq<Event>, pos: nat): (r: Result<(seq<Identity>, seq<Option<string>>, nat)>)
    requires pos < |events| && events[pos].StartTag?
    ensures r.Ok? ==> pos < r.value.2 < |events| && !events[r.value.2].StartTag?
  {
    LoopAsWritten(events, pos, [], [])
  }

  /** `parse(parser)` as written, called on the `query` start tag (or on any
      start tag a stanza hands it): the loop stops on the first event that is
      not a start tag, so a later sibling is left to the caller. */
  method ParseAsWritten(p: Parser) returns (r: Result<DiscoInfo>)
    requires p.Valid() && p.Current().StartTag?
    modifies p
    ensures p.Valid() && p.events == old(p.events)
    ensures r.Ok? ==> fresh(r.value)
    ensures ParseQueryAsWritten(p.events, old(p.pos)) ==
            if r.Ok? then Ok((r.value.identities, r.value.features, p.pos)) else Err(r.failure)
  {
    var di := new DiscoInfo();
    while true
      invariant p.Valid() && p.events == old(p.events) && old(p.pos) <= p.pos
      invariant fresh(di)
      invariant LoopAsWritten(p.events, p.pos, di.identities, di.features) == ParseQueryAsWritten(p.events, old(p.pos))
      decreases |p.events| - p.pos
    {
      var n := p.Next();
      if n.Err? {
        return Err(n.failure);
      }
      var e := p.Current();
      if !e.StartTag? {
        return Ok(di);
      }
      if e.name == "identity" {
        di.AddIdentity(AttrOf(e, "category"), AttrOf(e, "type"), AttrOf(e, "name"));
      } else if e.name == "feature" {
        di.AddFeature(AttrOf(e, "var"));
      } else {
        var s := Skip(p);
        if s.Fail? {
          return Err(s.failure);
        }
      }
    }
  }

  /** The loop of the corrected `parse`: every child element is read and
      then skipped to its end, and only the `query` end tag ends the loop. */
  function QueryBody(events: seq<Event>, tag: string, i: nat, ids: seq<Identity>, feats: seq<Option<string>>)
    : (r: Result<(seq<Identity>, seq<Option<string>>, nat)>)
    requires i < |events|
    ensures r.Ok? ==> i < r.value.2 < |events| && events[r.value.2] == EndTag(tag)
    decreases |events| - i
  {
    match Step(events, i)
    case Err(f) => Err(f)
    case Ok(j) =>
      var e := events[j];
      if e == EndTag(tag) then Ok((ids, feats, j))
      else if e.StartTag? then
        var ids' := if e.name == "identity" then ids + [IdentityOf(e)] else ids;
        var feats' := if e.name == "feature" then feats + [AttrOf(e, "var")] else feats;
        match SkipEnd(events, j)
        case Err(f) => Err(f)
        case Ok(k) => QueryBody(events, tag, k, ids', feats')
      else QueryBody(events, tag, j, ids, feats)
  }

  /** What the corrected `parse` returns at the `query` start tag, and where
      it leaves the cursor: on the `query` end tag. */
  function ParseQuery(events: seq<Event>, pos: nat): (r: Result<(seq<Identity>, seq<Option<string>>, nat)>)
    requires pos < |events| && events[pos].StartTag?
    ensures r.Ok? ==> pos < r.value.2 < |events| && events[r.value.2] == EndTag(events[pos].name)
  {
    QueryBody(events, events[pos].name, pos, [], [])
  }

  /** The corrected `parse(parser)`, called on the `query` start tag: the
      reference the as-written `ParseAsWritten` is compared with. Stanza
      parsing calls `ParseAsWritten`, as the program does. */
  method Parse(p: Parser) returns (r: Result<DiscoInfo>)
    requires p.Valid() && p.Current().StartTag?
    modifies p
    ensures p.Valid() && p.events == old(p.events)
    ensures r.Ok? ==> fresh(r.value)
    ensures ParseQuery(p.events, old(p.pos)) ==
            if r.Ok? then Ok((r.value.identities, r.value.features, p.pos)) else Err(r.failure)
  {
    var di := new DiscoInfo();
    var tag := p.Current().name;
    while true
      invariant p.Valid() && p.events == old(p.events) && old(p.pos) <= p.pos
      invariant fresh(di)
      invariant QueryBody(p.events, tag, p.pos, di.identities, di.features) == ParseQuery(p.events, old(p.pos))
      decreases |p.events| - p.pos
    {
      var n := p.Next();
      if n.Err? {
        return Err(n.failure);
      }
      var e := p.Current();
      if e == EndTag(tag) {
        return Ok(di);
      }
      if e.StartTag? {
        if e.name == "identity" {
          di.AddIdentity(AttrOf(e, "category"), AttrOf(e, "type"), AttrOf(e, "name"));
        } else if e.name == "feature" {
          di.AddFeature(AttrOf(e, "var"));
        }
        var s := Skip(p);
        if s.Fail? {
          return Err(s.failure);
        }
      }
    }
  }

  // ---------------------------------------------------------------------
  // what a reader reports for the text `toString` writes
  // ---------------------------------------------------------------------

  /** The attributes of `IdentityXml(i)` as a reader reports them (entities decoded). */
  function IdentityAttrs(i: Identity): seq<Attr>
  {
    OptAttr("category", i.category) + OptAttr("type", i.identityType) + OptAttr("name", i.name)
  }

  function IdentityEvents(i: Identity): seq<Event>
  {
    [StartTag("identity", Xmlns, IdentityAttrs(i), []), EndTag("identity")]
  }

  function FeatureEvents(f: Option<string>): seq<Event>
  {
    [StartTag("feature", Xmlns, [Attr("var", OrNull(f))], []), EndTag("feature")]
  }

  function IdsEvents(ids: seq<Identity>): (r: seq<Event>)
    ensures |r| == 2 * |ids|
  {
    if ids == [] then [] else IdentityEvents(ids[0]) + IdsEvents(ids[1..])
  }

  function FeatsEvents(feats: seq<Option<string>>): (r: seq<Event>)
    ensures |r| == 2 * |feats|
  {
    if feats == [] then [] else FeatureEvents(feats[0]) + FeatsEvents(feats[1..])
  }

  const QueryStart: Event := StartTag(TagName, Xmlns, [], [Attr("", Xmlns)])

  /** The events of the element `QueryXml(ids, feats)` writes. */
  function QueryEvents(ids: seq<Identity>, feats: seq<Option<string>>): (r: seq<Event>)
    ensures |r| == 2 * |ids| + 2 * |feats| + 2
  {
    [QueryStart] + IdsEvents(ids) + FeatsEvents(feats) + [EndTag(TagName)]
  }

  /** A null feature reads back as the text "null". */
  function Printed(f: Option<string>): Option<string>
  {
    Some(OrNull(f))
  }

  function MapPrinted(feats: seq<Option<string>>): (r: seq<Option<string>>)
    ensures |r| == |feats|
  {
    if feats == [] then [] else [Printed(feats[0])] + MapPrinted(feats[1..])
  }

  lemma LookupIdentity(i: Identity, key: string)
    ensures Lookup(IdentityAttrs(i), key) ==
      if key == "category" then i.category
      else if key == "type" then i.identityType
      else if key == "name" then i.name
      else None
  {
    var c := OptAttr("category", i.category);
    var t := OptAttr("type", i.identityType);
    var n := OptAttr("name", i.name);
    LookupAppend(c + t, n, key);
    LookupAppend(c, t, key);
    LookupOptAttr("category", i.category, key);
    LookupOptAttr("type", i.identityType, key);
    LookupOptAttr("name", i.name, key);
  }

  /** An attribute that `toString` writes verbatim and a reader reports
      unchanged: nothing to escape and nothing to normalize. */
  predicate RawText(s: string)
  {
    NoSpecials(s) && AttrText(s)
  }

  /** An identity whose element reads back as `IdentityEvents(i)`: category
      and type are written verbatim, the name through `escapeXml10`. */
  predicate PlainIdentity(i: Identity)
  {
    (i.category.Some? ==> RawText(i.category.value)) &&
    (i.identityType.Some? ==> RawText(i.identityType.value)) &&
    (i.name.Some? ==> AttrText(i.name.value))
  }

  /** A feature whose element reads back as `FeatureEvents(f)`: `var` is written verbatim. */
  predicate PlainFeature(f: Option<string>)
  {
    RawText(OrNull(f))
  }

  predicate PlainQuery(ids: seq<Identity>, feats: seq<Option<string>>)
  {
    (forall k :: 0 <= k < |ids| ==> PlainIdentity(ids[k])) &&
    (forall k :: 0 <= k < |feats| ==> PlainFeature(feats[k]))
  }

  /** The `identity` element whose reading is `IdentityEvents(i)`: its
      attributes quoted and escaped. */
  function QuotedIdentity(i: Identity): string
  {
    "<identity" + Concat(QuotedAttr, IdentityAttrs(i)) + "/>"
  }

  /** The `feature` element whose reading is `FeatureEvents(f)`. */
  function QuotedFeature(f: Option<string>): string
  {
    "<feature" + QuotedAttr(Attr("var", OrNull(f))) + "/>"
  }

  /** The `query` element whose reading is `QueryEvents(ids, feats)`. */
  function QuotedQuery(ids: seq<Identity>, feats: seq<Option<string>>): string
  {
    Opening + Concat(QuotedIdentity, ids) + Concat(QuotedFeature, feats) + Closing
  }

  /** The quoted form of an attribute that may be absent. */
  lemma QuotedOpt(name: string, v: Option<string>)
    ensures Concat(QuotedAttr, OptAttr(name, v)) == if v.Some? then QuotedAttr(Attr(name, v.value)) else ""
  {
    if v.Some? {
      assert OptAttr(name, v)[..0] == [];
    }
  }

  /** A raw attribute `toString` writes verbatim is its quoted form. */
  lemma QuotedRaw(name: string, v: Option<string>)
    requires v.Some? ==> RawText(v.value)
    ensures Concat(QuotedAttr, OptAttr(name, v)) == if v.Some? then " " + name + "='" + v.value + "'" else ""
  {
    QuotedOpt(name, v);
    if v.Some? {
      RawIsEscaped(v.value);
    }
  }

  /** An attribute `toString` writes through `escapeXml10` is its quoted form. */
  lemma QuotedXml10(name: string, v: Option<string>)
    requires v.Some? ==> AttrText(v.value)
    ensures Concat(QuotedAttr, OptAttr(name, v)) == if v.Some? then " " + name + "='" + EscapedXml10(v.value) + "'" else ""
  {
    QuotedOpt(name, v);
    if v.Some? {
      EscapedXml10OfAttrText(v.value);
    }
  }

  /** A raw value is unchanged by escaping. */
  lemma RawIsEscaped(s: string)
    requires RawText(s)
    ensures Escaped(s) == s
  {
    EscapedIdentity(s);
  }

  /** A plain identity is written as the element a reader reports as `IdentityEvents(i)`. */
  lemma IdentityXmlIsQuoted(i: Identity)
    requires PlainIdentity(i)
    ensures IdentityXml(i) == QuotedIdentity(i)
  {
    var x := if i.category.Some? then " category='" + i.category.value + "'" else "";
    var y := if i.identityType.Some? then " type='" + i.identityType.value + "'" else "";
    var z := if i.name.Some? then " name='" + EscapedXml10(i.name.value) + "'" else "";
    assert IdentityXml(i) == "<identity" + x + y + z + "/>";
    CategoryQuoted(i);
    TypeQuoted(i);
    NameQuoted(i);
    IdentityAttrsJoin(i, x, y, z);
    Wrap3("<identity", x, y, z, "/>");
  }

  lemma CategoryQuoted(i: Identity)
    requires PlainIdentity(i)
    ensures Concat(QuotedAttr, OptAttr("category", i.category)) ==
            if i.category.Some? then " category='" + i.category.value + "'" else ""
  {
    QuotedRaw("category", i.category);
  }

  lemma TypeQuoted(i: Identity)
    requires PlainIdentity(i)
    ensures Concat(QuotedAttr, OptAttr("type", i.identityType)) ==
            if i.identityType.Some? then " type='" + i.identityType.value + "'" else ""
  {
    QuotedRaw("type", i.identityType);
  }

  lemma NameQuoted(i: Identity)
    requires PlainIdentity(i)
    ensures Concat(QuotedAttr, OptAttr("name", i.name)) ==
            if i.name.Some? then " name='" + EscapedXml10(i.name.value) + "'" else ""
  {
    QuotedXml10("name", i.name);
  }

  /** The quoted attributes of an identity are those of its three parts in order. */
  lemma IdentityAttrsJoin(i: Identity, x: string, y: string, z: string)
    requires Concat(QuotedAttr, OptAttr("category", i.category)) == x
    requires Concat(QuotedAttr, OptAttr("type", i.identityType)) == y
    requires Concat(QuotedAttr, OptAttr("name", i.name)) == z
    ensures Concat(QuotedAttr, IdentityAttrs(i)) == x + y + z
  {
    var c := OptAttr("category", i.category);
    var t := OptAttr("type", i.identityType);
    var n := OptAttr("name", i.name);
    assert IdentityAttrs(i) == c + t + n;
    ConcatAppend(QuotedAttr, c + t, n);
    ConcatAppend(QuotedAttr, c, t);
  }

  lemma Wrap3<T>(h: seq<T>, x: seq<T>, y: seq<T>, z: seq<T>, e: seq<T>)
    ensures h + (x + y + z) + e == h + x + y + z + e
  {
  }

  /** A plain feature is written as the element a reader reports as `FeatureEvents(f)`. */
  lemma FeatureXmlIsQuoted(f: Option<string>)
    requires PlainFeature(f)
    ensures FeatureXml(f) == QuotedFeature(f)
  {
    RawIsEscaped(OrNull(f));
  }

  /** A plain query is written as the element a reader reports as `QueryEvents(ids, feats)`. */
  lemma QueryXmlIsQuoted(ids: seq<Identity>, feats: seq<Option<string>>)
    requires PlainQuery(ids, feats)
    ensures QueryXml(ids, feats) == QuotedQuery(ids, feats)
  {
    forall k | 0 <= k < |ids| ensures IdentityXml(ids[k]) == QuotedIdentity(ids[k]) {
      IdentityXmlIsQuoted(ids[k]);
    }
    forall k | 0 <= k < |feats| ensures FeatureXml(feats[k]) == QuotedFeature(feats[k]) {
      FeatureXmlIsQuoted(feats[k]);
    }
    ConcatAgree(IdentityXml, QuotedIdentity, ids);
    ConcatAgree(FeatureXml, QuotedFeature, feats);
  }

  /** The identity start tag a reader reports gives back the identity; for
      a plain identity that tag is the one `toString` writes. */
  lemma IdentityOfEvents(i: Identity)
    ensures IdentityOf(IdentityEvents(i)[0]) == i
    ensures PlainIdentity(i) ==> IdentityXml(i) == QuotedIdentity(i)
  {
    LookupIdentity(i, "category");
    LookupIdentity(i, "type");
    LookupIdentity(i, "name");
    if PlainIdentity(i) {
      IdentityXmlIsQuoted(i);
    }
  }

  /** One empty child element: read, skipped, and the loop goes on after it. */
  lemma QueryBodyEmptyChild(events: seq<Event>, tag: string, i: nat, ids: seq<Identity>, feats: seq<Option<string>>)
    requires i + 2 < |events| && !events[i].EndDocument?
    requires events[i + 1].StartTag? && events[i + 2] == EndTag(events[i + 1].name)
    ensures var e := events[i + 1];
      QueryBody(events, tag, i, ids, feats) ==
      QueryBody(events, tag, i + 2,
                if e.name == "identity" then ids + [IdentityOf(e)] else ids,
                if e.name == "feature" then feats + [AttrOf(e, "var")] else feats)
  {
    assert Step(events, i) == Ok(i + 1);
    assert Step(events, i + 1) == Ok(i + 2);
    assert SkipEnd(events, i + 1) == Ok(i + 2);
  }

  /** Reading the first identity element of a run. */
  lemma IdsHead(events: seq<Event>, tag: string, i: nat, ids: seq<Identity>,
                feats: seq<Option<string>>, xs: seq<Identity>)
    requires xs != [] && i + 2 * |xs| < |events| && !events[i].EndDocument?
    requires Occurs(events, i + 1, IdsEvents(xs))
    ensures QueryBody(events, tag, i, ids, feats) == QueryBody(events, tag, i + 2, ids + [xs[0]], feats)
    ensures events[i + 2] == EndTag("identity")
    ensures Occurs(events, i + 3, IdsEvents(xs[1..]))
  {
    OccursSplit(events, i + 1, IdentityEvents(xs[0]), IdsEvents(xs[1..]));
    OccursAt(events, i + 1, IdentityEvents(xs[0]), 0);
    OccursAt(events, i + 1, IdentityEvents(xs[0]), 1);
    IdentityOfEvents(xs[0]);
    QueryBodyEmptyChild(events, tag, i, ids, feats);
  }

  /** Reading a run of identity elements adds them, in order, and the run
      of feature elements and the end tag after them are read as well. */
  lemma {:induction false} IdsRun(events: seq<Event>, tag: string, i: nat, ids: seq<Identity>,
                                  xs: seq<Identity>, fs: seq<Option<string>>)
    requires i + 2 * |xs| + 2 * |fs| + 1 < |events| && !events[i].EndDocument?
    requires Occurs(events, i + 1, IdsEvents(xs))
    requires Occurs(events, i + 1 + 2 * |xs|, FeatsEvents(fs))
    requires events[i + 2 * |xs| + 2 * |fs| + 1] == EndTag(tag)
    ensures QueryBody(events, tag, i, ids, []) == Ok((ids + xs, MapPrinted(fs), i + 2 * |xs| + 2 * |fs| + 1))
    decreases |xs|
  {
    if xs == [] {
      AppendEmpty(ids);
      AppendEmpty(MapPrinted(fs));
      FeatsRun(events, tag, i, ids, [], fs);
    } else {
      var ids' := ids + [xs[0]];
      AppendHead(ids, xs);
      IdsHead(events, tag, i, ids, [], xs);
      assert i + 2 + 1 + 2 * |xs[1..]| == i + 1 + 2 * |xs|;
      assert i + 2 + 2 * |xs[1..]| + 2 * |fs| + 1 == i + 2 * |xs| + 2 * |fs| + 1;
      IdsRun(events, tag, i + 2, ids', xs[1..], fs);
    }
  }

  /** Reading the first feature element of a run. */
  lemma FeatsHead(events: seq<Event>, tag: string, i: nat, ids: seq<Identity>,
                  feats: seq<Option<string>>, xs: seq<Option<string>>)
    requires xs != [] && i + 2 * |xs| < |events| && !events[i].EndDocument?
    requires Occurs(events, i + 1, FeatsEvents(xs))
    ensures QueryBody(events, tag, i, ids, feats) == QueryBody(events, tag, i + 2, ids, feats + [Printed(xs[0])])
    ensures events[i + 2] == EndTag("feature")
    ensures Occurs(events, i + 3, FeatsEvents(xs[1..]))
  {
    OccursSplit(events, i + 1, FeatureEvents(xs[0]), FeatsEvents(xs[1..]));
    OccursAt(events, i + 1, FeatureEvents(xs[0]), 0);
    OccursAt(events, i + 1, FeatureEvents(xs[0]), 1);
    QueryBodyEmptyChild(events, tag, i, ids, feats);
  }

  /** Reading a run of feature elements adds their printed values, in
      order, and the end tag after them ends the loop. */
  lemma {:induction false} FeatsRun(events: seq<Event>, tag: string, i: nat, ids: seq<Identity>,
                                    feats: seq<Option<string>>, xs: seq<Option<string>>)
    requires i + 2 * |xs| + 1 < |events| && !events[i].EndDocument?
    requires Occurs(events, i + 1, FeatsEvents(xs))
    requires events[i + 2 * |xs| + 1] == EndTag(tag)
    ensures QueryBody(events, tag, i, ids, feats) == Ok((ids, feats + MapPrinted(xs), i + 2 * |xs| + 1))
    decreases |xs|
  {
    if xs == [] {
      AppendEmpty(feats);
      QueryBodyEnd(events, tag, i, ids, feats);
    } else {
      var feats' := feats + [Printed(xs[0])];
      assert MapPrinted(xs) == [Printed(xs[0])] + MapPrinted(xs[1..]);
      assert feats' + MapPrinted(xs[1..]) == feats + MapPrinted(xs);
      FeatsHead(events, tag, i, ids, feats, xs);
      assert i + 2 + 2 * |xs[1..]| + 1 == i + 2 * |xs| + 1;
      FeatsRun(events, tag, i + 2, ids, feats', xs[1..]);
    }
  }

  /** The end tag ends the loop. */
  lemma QueryBodyEnd(events: seq<Event>, tag: string, i: nat, ids: seq<Identity>, feats: seq<Option<string>>)
    requires i + 1 < |events| && !events[i].EndDocument? && events[i + 1] == EndTag(tag)
    ensures QueryBody(events, tag, i, ids, feats) == Ok((ids, feats, i + 1))
  {
    assert Step(events, i) == Ok(i + 1);
  }

  /** Where the parts of `QueryEvents(ids, feats)` lie when it occurs at `pos`. */
  lemma QueryEventsAt(ids: seq<Identity>, feats: seq<Option<string>>, events: seq<Event>, pos: nat)
    requires Occurs(events, pos, QueryEvents(ids, feats))
    ensures pos + 2 * |ids| + 2 * |feats| + 1 < |events|
    ensures events[pos] == QueryStart && !events[pos].EndDocument? && events[pos].name == TagName
    ensures Occurs(events, pos + 1, IdsEvents(ids))
    ensures Occurs(events, pos + 1 + 2 * |ids|, FeatsEvents(feats))
    ensures events[pos + 1 + 2 * |ids| + 2 * |feats|] == EndTag(TagName)
  {
    QueryEventsFront(ids, feats, events, pos);
    QueryEventsEnd(ids, feats, events, pos);
  }

  lemma QueryEventsFront(ids: seq<Identity>, feats: seq<Option<string>>, events: seq<Event>, pos: nat)
    requires Occurs(events, pos, QueryEvents(ids, feats))
    ensures events[pos] == QueryStart
    ensures Occurs(events, pos + 1, IdsEvents(ids))
    ensures Occurs(events, pos + 1 + 2 * |ids|, FeatsEvents(feats))
  {
    var a, b, c, d := [QueryStart], IdsEvents(ids), FeatsEvents(feats), [EndTag(TagName)];
    OccursSplit(events, pos, a + b + c, d);
    QueryEventsHead(events, pos, a, b, c);
  }

  lemma QueryEventsEnd(ids: seq<Identity>, feats: seq<Option<string>>, events: seq<Event>, pos: nat)
    requires Occurs(events, pos, QueryEvents(ids, feats))
    ensures events[pos + 1 + 2 * |ids| + 2 * |feats|] == EndTag(TagName)
  {
    var a, b, c, d := [QueryStart], IdsEvents(ids), FeatsEvents(feats), [EndTag(TagName)];
    OccursSplit(events, pos, a + b + c, d);
    OccursAt(events, pos + |a + b + c|, d, 0);
  }

  lemma QueryEventsHead(events: seq<Event>, pos: nat, a: seq<Event>, b: seq<Event>, c: seq<Event>)
    requires Occurs(events, pos, a + b + c) && |a| == 1
    ensures events[pos] == a[0]
    ensures Occurs(events, pos + 1, b)
    ensures Occurs(events, pos + 1 + |b|, c)
  {
    OccursSplit(events, pos, a + b, c);
    OccursSplit(events, pos, a, b);
    OccursAt(events, pos, a, 0);
  }

  /** Reading back what `toString` writes for a plain query gives every
      identity and every feature, in order, with the cursor on the `query`
      end tag. */
  lemma ParseQueryWritten(ids: seq<Identity>, feats: seq<Option<string>>, events: seq<Event>, pos: nat)
    requires PlainQuery(ids, feats)
    requires Occurs(events, pos, QueryEvents(ids, feats))
    ensures QueryXml(ids, feats) == QuotedQuery(ids, feats)
    ensures events[pos] == QueryStart
    ensures ParseQuery(events, pos) == Ok((ids, MapPrinted(feats), pos + 2 * |ids| + 2 * |feats| + 1))
  {
    QueryXmlIsQuoted(ids, feats);
    QueryEventsAt(ids, feats, events, pos);
    ParseQueryRun(ids, feats, events, pos);
  }

  /** The query element laid out by its parts. */
  lemma ParseQueryRun(ids: seq<Identity>, feats: seq<Option<string>>, events: seq<Event>, pos: nat)
    requires pos + 2 * |ids| + 2 * |feats| + 1 < |events|
    requires events[pos] == QueryStart && !events[pos].EndDocument? && events[pos].name == TagName
    requires Occurs(events, pos + 1, IdsEvents(ids))
    requires Occurs(events, pos + 1 + 2 * |ids|, FeatsEvents(feats))
    requires events[pos + 1 + 2 * |ids| + 2 * |feats|] == EndTag(TagName)
    ensures ParseQuery(events, pos) == Ok((ids, MapPrinted(feats), pos + 2 * |ids| + 2 * |feats| + 1))
  {
    AppendEmpty(ids);
    IdsRun(events, TagName, pos, [], ids, feats);
  }

  /** Two identities written by `toString`. */
  const Client: Identity := Identity(Some("client"), Some("pc"), None)
  const Server: Identity := Identity(Some("server"), Some("im"), None)

  /** The two sample identities need no escaping. */
  lemma SamplesPlain()
    ensures PlainQuery([Client, Server], [])
  {
    assert RawText("client") && RawText("pc") && RawText("server") && RawText("im");
  }

  /** `parse` as written keeps only the first of two identities: it stops on
      the end tag of the first self-closing `identity`, where the corrected
      loop reads both and stops on the `query` end tag. */
  lemma AsWrittenDropsSecondIdentity()
    ensures ParseQueryAsWritten(QueryEvents([Client, Server], []), 0) == Ok(([Client], [], 2))
    ensures ParseQuery(QueryEvents([Client, Server], []), 0) == Ok(([Client, Server], [], 5))
  {
    var q := QueryEvents([Client, Server], []);
    assert Occurs(q, 0, q);
    OccursSplit(q, 0, [QueryStart] + IdsEvents([Client, Server]) + FeatsEvents([]), [EndTag(TagName)]);
    OccursSplit(q, 0, [QueryStart] + IdsEvents([Client, Server]), FeatsEvents([]));
    OccursSplit(q, 0, [QueryStart], IdsEvents([Client, Server]));
    IdsHead(q, TagName, 0, [], [], [Client, Server]);
    OccursAt(q, 1, IdsEvents([Client, Server]), 0);
    assert IdsEvents([Client, Server])[0] == IdentityEvents(Client)[0];
    IdentityOfEvents(Client);
    assert Step(q, 0) == Ok(1);
    assert Step(q, 1) == Ok(2);
    assert [] + [IdentityOf(q[1])] == [Client];
    assert LoopAsWritten(q, 1, [Client], []) == Ok(([Client], [], 2));
    assert LoopAsWritten(q, 0, [], []) == LoopAsWritten(q, 1, [Client], []);
    SamplesPlain();
    ParseQueryWritten([Client, Server], [], q, 0);
    assert MapPrinted([]) == [];
  }
}
