/** XMPP addresses (`local@domain/resource`).

    Neither `rocks.xmpp.addr.Jid` (main tree) nor the older `JID` class is
    part of this model; both are represented by one immutable record with
    an optional local part and an optional resource. Their string form is
    plain concatenation: the XEP-0106 escaping and the stringprep
    normalisation of the real classes are left out. */
module Addresses {
  import opened Wrappers

  datatype Jid = Jid(local: Option<string>, domain: string, resource: Option<string>)

  /** `toEscapedString()` (and the old `JID.toString()`): `local@domain/resource`. */
  function ToEscapedString(j: Jid): string
  {
    (if j.local.Some? then j.local.value + "@" else "")
    + j.domain
    + (if j.resource.Some? then "/" + j.resource.value else "")
  }

  /** `asBareJid()`: the address without its resource. */
  function Bare(j: Jid): Jid
  {
    j.(resource := None)
  }

  /** `Jid.of(domain)`: an address made of a domain alone. */
  function DomainJid(domain: string): Jid
  {
    Jid(None, domain, None)
  }

  /** `withResource(r)`. */
  function WithResource(j: Jid, r: Option<string>): Jid
  {
    j.(resource := r)
  }

  /** The first index of `c` in `s`, if any. */
  function IndexOf(s: string, c: char): (r: Option<nat>)
    ensures r.Some? ==> r.value < |s| && s[r.value] == c && c !in s[..r.value]
    ensures r.None? ==> c !in s
  {
    if s == [] then None
    else if s[0] == c then Some(0)
    else
      var t := IndexOf(s[1..], c);
      if t.Some? then
        assert s[..t.value + 1] == [s[0]] + s[1..][..t.value];
        Some(t.value + 1)
      else None
  }

  /** `Jid.of(s)`: the resource is what follows the first '/', the local part
      what precedes the first '@' before it. */
  function Of(s: string): Jid
  {
    var (body, res) := CutResource(s);
    var (local, domain) := CutLocal(body);
    Jid(local, domain, res)
  }

  /** Splits off what follows the first '/'. */
  function CutResource(s: string): (string, Option<string>)
  {
    match IndexOf(s, '/')
    case Some(k) => (s[..k], Some(s[k + 1..]))
    case None => (s, None)
  }

  /** Splits off what precedes the first '@'. */
  function CutLocal(s: string): (Option<string>, string)
  {
    match IndexOf(s, '@')
    case Some(k) => (Some(s[..k]), s[k + 1..])
    case None => (None, s)
  }

  /** Local part and domain hold no separator character. */
  predicate WellFormed(j: Jid)
  {
    '@' !in j.domain && '/' !in j.domain &&
    (j.local.Some? ==> '@' !in j.local.value && '/' !in j.local.value)
  }

  /** The part before the resource: `local@domain` or `domain`. */
  function BarePart(j: Jid): string
  {
    (if j.local.Some? then j.local.value + "@" else "") + j.domain
  }

  /** Parsing the string form of a well-formed address gives the address back. */
  lemma OfToEscapedString(j: Jid)
    requires WellFormed(j)
    ensures Of(ToEscapedString(j)) == j
  {
    CutResourceOf(j);
    CutLocalOf(j);
  }

  lemma CutResourceOf(j: Jid)
    requires WellFormed(j)
    ensures CutResource(ToEscapedString(j)) == (BarePart(j), j.resource)
  {
    var pre := BarePart(j);
    assert '/' !in pre;
    if j.resource.Some? {
      var s := ToEscapedString(j);
      assert s == pre + ("/" + j.resource.value);
      IndexOfSplit(pre, "/" + j.resource.value, '/');
      assert s[..|pre|] == pre;
      assert s[|pre| + 1..] == j.resource.value;
    } else {
      assert ToEscapedString(j) == pre;
    }
  }

  lemma CutLocalOf(j: Jid)
    requires WellFormed(j)
    ensures CutLocal(BarePart(j)) == (j.local, j.domain)
  {
    var pre := BarePart(j);
    if j.local.Some? {
      var l := j.local.value;
      IndexOfSplit(l, "@" + j.domain, '@');
      assert pre == l + ("@" + j.domain);
      assert pre[..|l|] == l;
      assert pre[|l| + 1..] == j.domain;
    } else {
      assert pre == j.domain;
    }
  }

  /** Where `c` first occurs in `a + b`, when `a` has none and `b` starts with it. */
  lemma {:induction false} IndexOfSplit(a: string, b: string, c: char)
    requires c !in a && |b| > 0 && b[0] == c
    ensures IndexOf(a + b, c) == Some(|a|)
  {
    if a == [] {
      assert a + b == b;
    } else {
      assert (a + b)[0] == a[0] && (a + b)[1..] == a[1..] + b;
      IndexOfSplit(a[1..], b, c);
    }
  }
}
