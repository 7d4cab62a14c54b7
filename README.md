# com.juick.xmpp in Dafny

A model of the core of the Juick XMPP library, with proofs about it. The model
covers the XML helpers (`XmlUtils`), the stanzas (`Stanza`, `Iq`, `Presence`)
and two extensions (`DiscoInfo`, `JuickUser`). It also covers the `Stream`
base class in its two generations and the five stream roles: the
server-to-server listener (`StreamServer`), the outbound dialback stream
(`StreamServerDialback`), the client (`StreamClient`), the component
(`StreamComponent`) and the component-accepting server
(`StreamComponentServer`).

How the program's world is represented:

- **The XML pull parser** is a class `XmlPull.Parser` over a sequence of
  events (`StartDocument`, `StartTag`, `Text`, `EndTag`, `EndDocument`,
  `Malformed`) and a cursor. `next()` fails with an XML fault on malformed
  input or at the end of the document. It fails with end-of-stream when the
  input runs out.
- **The output writer** is a sequence of written strings plus an open flag.
- **Calls to listeners** are appended to a trace of notices.
- **The correlated iq listeners** (`listenersIqId`) are a map from the key
  `jid + "\n" + id` to a listener.
- **Each Java class whose fields are updated in place** is a Dafny class with
  those fields. Its methods are proved against value-level functions over a
  `Wire` (output, open, logged in, trace, pending iq listeners).
- **The five stream roles** hold a `Streams.Stream` (composition in place of
  inheritance).

| Dafny file | Java source (paths under `src/`) |
|---|---|
| `wrappers.dfy`, `text.dfy`, `jid.dfy` | results and failures, string and number helpers, addresses as the model sees them |
| `xml_pull.dfy` | the pull-parser events and cursor |
| `xml_utils.dfy` | `main/java/com/juick/xmpp/utils/XmlUtils.java` |
| `stanza.dfy` | `com/juick/xmpp/Stanza.java` |
| `stanza_children.dfy` | the child-parser dispatch shared by `Iq.parse` and `Presence.parse` |
| `iq.dfy` | `main/java/com/juick/xmpp/Iq.java`, and `com/juick/xmpp/Iq.java`, which behaves the same in the modelled operations |
| `presence.dfy` | `main/java/com/juick/xmpp/Presence.java` |
| `disco_info.dfy` | `main/java/com/juick/xmpp/extensions/DiscoInfo.java` |
| `juick_user.dfy` | `main/java/com/juick/xmpp/extensions/JuickUser.java` |
| `stream.dfy` | `main/java/com/juick/xmpp/Stream.java` |
| `legacy_stream.dfy` | `com/juick/xmpp/Stream.java` |
| `stream_server.dfy` | `main/java/com/juick/xmpp/StreamServer.java` |
| `stream_server_dialback.dfy` | `main/java/com/juick/xmpp/StreamServerDialback.java` |
| `stream_client.dfy` | `main/java/com/juick/xmpp/StreamClient.java` |
| `stream_component.dfy` | `main/java/com/juick/xmpp/StreamComponent.java` |
| `stream_component_server.dfy` | `main/java/com/juick/xmpp/StreamComponentServer.java` |

## Model

| member | source | states |
|---|---|---|
| XmlUtils.Escape | src/main/java/com/juick/xmpp/utils/XmlUtils.java:87-112 | the character loop yields `Escaped(str)`: each of `< > & ' "` becomes its entity, and every other character is kept |
| XmlUtils.EscapedAppend | src/main/java/com/juick/xmpp/utils/XmlUtils.java:87-112 | escaping distributes over concatenation |
| XmlUtils.EscapedIdentity | src/main/java/com/juick/xmpp/utils/XmlUtils.java:87-112 | escaping leaves a string unchanged iff it holds none of the five special characters, and otherwise makes it strictly longer |
| XmlUtils.EscapedIsSafe | src/main/java/com/juick/xmpp/utils/XmlUtils.java:87-112 | escaped text contains no `<`, `>`, quote or apostrophe, and every `&` in it starts an entity |
| XmlUtils.UnescapedEscaped | src/main/java/com/juick/xmpp/utils/XmlUtils.java:87-112 | round trip: decoding the five entities recovers the original string |
| XmlUtils.EscapedXml10OfPrintable | src/main/java/com/juick/xmpp/Presence.java:131 | the XML 1.0 escaper agrees with `escape` on text without control characters |
| XmlUtils.EscapedXml10DropsControl | src/main/java/com/juick/xmpp/Presence.java:139 | a character XML 1.0 forbids (a control character other than tab, LF and CR, or U+FFFE, U+FFFF) leaves no trace in what the XML 1.0 escaper writes, wherever it stands |
| XmlUtils.EscapedXml10OfAttrText | src/main/java/com/juick/xmpp/extensions/DiscoInfo.java:110 | on an attribute value that attribute-value normalization keeps, the XML 1.0 escaper writes the escaped value |
| XmlUtils.ContentTextReadBack | src/main/java/com/juick/xmpp/Presence.java:131 | text content without control characters or carriage returns, written through the XML 1.0 escaper, decodes back to itself |
| XmlUtils.SkipFrom | src/main/java/com/juick/xmpp/utils/XmlUtils.java:32 | the `skip` loop, when it ends normally, stops after its start on the end tag or on a nameless event |
| XmlUtils.SkipFromFirst | src/main/java/com/juick/xmpp/utils/XmlUtils.java:32 | the loop stops at the first such event |
| XmlUtils.SkipEnd | src/main/java/com/juick/xmpp/utils/XmlUtils.java:30-34 | `skip` on a nameless event does not move; from a tag it stops after the tag on its end tag or on the first nameless event |
| XmlUtils.SkipEndFirst | src/main/java/com/juick/xmpp/utils/XmlUtils.java:30-34 | `skip` stops at the first such event: none before it is the end tag or nameless |
| XmlUtils.Skip | src/main/java/com/juick/xmpp/utils/XmlUtils.java:30-34 | the parser loop moves the cursor exactly where `SkipEnd` says, and fails exactly when it does |
| XmlUtils.TagText | src/main/java/com/juick/xmpp/utils/XmlUtils.java:36-49 | the result is the text right after the start tag (or empty), and the cursor ends on the matching end tag |
| XmlUtils.TagTextFirst | src/main/java/com/juick/xmpp/utils/XmlUtils.java:44-46 | `getTagText` stops on the first matching end tag |
| XmlUtils.EndTagFrom | src/main/java/com/juick/xmpp/utils/XmlUtils.java:44-46 | the closing loop of `getTagText` ends normally only on an end tag of the name it was given; with no name it ends only by an exception |
| XmlUtils.EndTagFromFirst | src/main/java/com/juick/xmpp/utils/XmlUtils.java:44-46 | the closing loop stops at the first such end tag |
| XmlUtils.GetTagText | src/main/java/com/juick/xmpp/utils/XmlUtils.java:36-49 | the method returns the text and final cursor of `TagText`, or its failure |
| XmlUtils.EmittedAttrs | src/main/java/com/juick/xmpp/utils/XmlUtils.java:62-67 | an attribute is written iff it has no prefix and is not a skipped `xmlns` |
| XmlUtils.AttrsXmlIsEmitted | src/main/java/com/juick/xmpp/utils/XmlUtils.java:62-67 | the attribute text is the concatenation of exactly the emitted attributes, in order |
| XmlUtils.WriteOpenTag | src/main/java/com/juick/xmpp/utils/XmlUtils.java:52-68 | the loop writes the start tag with the namespace (unless skipped) and the emitted attributes with escaped values |
| XmlUtils.Render | src/main/java/com/juick/xmpp/utils/XmlUtils.java:51-85 | a rendered element begins with its start tag, ends with `</name>`, and leaves the cursor on its own end tag |
| XmlUtils.RenderBody | src/main/java/com/juick/xmpp/utils/XmlUtils.java:70-83 | the body loop extends what was rendered so far and closes the element on its end tag |
| XmlUtils.ParseToString | src/main/java/com/juick/xmpp/utils/XmlUtils.java:51-85 | the recursive method returns the string and cursor of `Render`, or its failure |
| Stanzas.QuotedOptAttr | src/com/juick/xmpp/Stanza.java:72-83 | an optional attribute is written as ` name='escaped value'` when present and as nothing when absent |
| Stanzas.EnvelopeXmlIsAttrs | src/com/juick/xmpp/Stanza.java:69-85 | for plain addresses, `toString` writes exactly the attribute list from, to, id, type |
| Stanzas.LookupEnvelope | src/com/juick/xmpp/Stanza.java:54-67 | looking up from, to, id or type in the written attributes gives the envelope's own value |
| Stanzas.ReadWrittenEnvelope | src/com/juick/xmpp/Stanza.java:54-85 | for a plain envelope (addresses needing no escaping, since from and to are written verbatim, and no value normalization alters), `toString` writes exactly the quoted attributes `EnvelopeAttrs(e)`, and `parseStanza` of those attributes recovers the envelope; an absent from/to keeps the stanza's old value |
| Stanzas.WriteChildren | src/main/java/com/juick/xmpp/Iq.java:119-121 | the loop writes the concatenation of the children's XML, in order |
| Stanzas.Stanza.constructor | src/com/juick/xmpp/Stanza.java:30-34 | a new stanza has no addresses or type, a default id and no children |
| Stanzas.Stanza.AddChild | src/com/juick/xmpp/Stanza.java:36-38 | the child is appended; the earlier children are unchanged |
| Stanzas.Stanza.HasChilds | src/com/juick/xmpp/Stanza.java:40-42 | true iff there is a child |
| Stanzas.Stanza.GetChild | src/com/juick/xmpp/Stanza.java:44-52 | the first child with the namespace, or none iff no child has it |
| Stanzas.Stanza.ParseStanza | src/com/juick/xmpp/Stanza.java:54-67 | the envelope read from the start tag: from and to only when present, id and type always (absent means null) |
| StanzaChildren.ChildParse | src/main/java/com/juick/xmpp/Iq.java:97-104 | a registered parser yields a child of its own namespace and moves forward; no child means the element is left for `skip`. The disco#info parser is `parse` as written, which may stop inside the element |
| StanzaChildren.Skipped | src/main/java/com/juick/xmpp/Iq.java:105-110 | an element without a parser produces no child and is skipped |
| StanzaChildren.ChildStep | src/main/java/com/juick/xmpp/Iq.java:94-111 | a child element is always consumed when it succeeds |
| StanzaChildren.ChildStepNamespace | src/main/java/com/juick/xmpp/Iq.java:95-101 | a child is produced only when the table holds the element's namespace, and the child has that namespace |
| StanzaChildren.ChildStepNoTable | src/main/java/com/juick/xmpp/Iq.java:96 | a null table behaves like an empty one: every element is skipped |
| StanzaChildren.ParseWith | src/main/java/com/juick/xmpp/Iq.java:97-104 | the method agrees with `ChildParse`, calling the as-written disco#info parse |
| StanzaChildren.ParseChild | src/main/java/com/juick/xmpp/Iq.java:94-111 | the method agrees with `ChildStep` |
| Iqs.IqXml | src/main/java/com/juick/xmpp/Iq.java:116-127 | fails iff the type is null (the `type.equals` dereference); otherwise the text starts with the iq start tag and ends with `</iq>` |
| Iqs.ReplyEnvelope | src/main/java/com/juick/xmpp/Iq.java:69-86 | a reply swaps from and to, keeps the id and sets the type |
| Iqs.ReplyOfReply | src/main/java/com/juick/xmpp/Iq.java:69-76 | replying to a reply restores the original addresses and id |
| Iqs.ReplyXml | src/main/java/com/juick/xmpp/Iq.java:116-127 | a childless reply is written without failing; only an error reply carries the service-unavailable block |
| Iqs.Iq.constructor | src/main/java/com/juick/xmpp/Iq.java:48-49 | a new iq is empty |
| Iqs.Iq.AddChild | src/main/java/com/juick/xmpp/Iq.java:59-63 | after adding, the iq holds exactly that one child |
| Iqs.Iq.GetChild | src/main/java/com/juick/xmpp/Iq.java:65-67 | none iff there are no children; otherwise the only child |
| Iqs.Iq.Reply | src/main/java/com/juick/xmpp/Iq.java:69-76 | a fresh childless iq of type result, addressed back |
| Iqs.Iq.Error | src/main/java/com/juick/xmpp/Iq.java:78-86 | a fresh childless iq of type error, addressed back |
| Iqs.Iq.ToString | src/main/java/com/juick/xmpp/Iq.java:116-127 | the method agrees with `IqXml` |
| Iqs.IqBody | src/main/java/com/juick/xmpp/Iq.java:92-112 | the body loop ends on the iq's end tag and never leaves more than one child |
| Iqs.BodyAtChild | src/main/java/com/juick/xmpp/Iq.java:93-103 | one round of the loop on a child element: a parsed child replaces the iq's child |
| Iqs.IqParse | src/main/java/com/juick/xmpp/Iq.java:88-114 | the envelope comes from the start tag; there is at most one child; the cursor ends on `</iq>` |
| Iqs.Parse | src/main/java/com/juick/xmpp/Iq.java:88-114 | the method builds a fresh iq whose envelope, children and final cursor are those of `IqParse` |
| Iqs.ReadBody | src/main/java/com/juick/xmpp/Iq.java:92-112 | the loop method agrees with `IqBody` |
| Iqs.OpeningIsQuoted | src/main/java/com/juick/xmpp/Iq.java:117-118 | for a plain envelope the start tag `toString` writes is the quoted start tag whose attributes read back as the envelope |
| Iqs.ParseEmptyWritten | src/main/java/com/juick/xmpp/Iq.java:88-127 | round trip: for a plain envelope and a type other than error, an empty iq is written as its quoted start tag and `</iq>`, and that parses back to the same envelope with no children |
| Iqs.ParseErrorWritten | src/main/java/com/juick/xmpp/Iq.java:88-127 | round trip for type error: the written text carries the service-unavailable block, which parse skips when no parser is registered under the iq's namespace, so the envelope comes back with no children |
| Iqs.ErrorBodySkipped | src/main/java/com/juick/xmpp/Iq.java:93-111 | the error block is skipped as one element and the iq's end tag ends the loop |
| Iqs.ParseUserWritten | src/main/java/com/juick/xmpp/Iq.java:88-127 | round trip: for a plain envelope and a type other than error, an iq carrying a Juick user is written as the quoted start tag, the user element (its opening, its quoted attributes `WrittenAttrs`, `/>`) and `</iq>`; with a user name that attribute normalization keeps, every written value is one a reader reports unchanged, and the iq parses back to the same envelope and `Normalize(u)` |
| Iqs.DiscoResultAsWritten | src/main/java/com/juick/xmpp/Iq.java:93-111 | with a disco#info parser registered, a result holding one identity and one feature parses to an iq holding an empty disco#info: the parser stops on the identity's end tag, the feature is handed to it again, and the empty result replaces the first child; the corrected query parse reads both |
| Text.ParseInt | src/main/java/com/juick/xmpp/Presence.java:91-98 | `Integer.parseInt` succeeds only on non-empty text |
| Text.ParseIntOfIntToString | src/main/java/com/juick/xmpp/Presence.java:91-98 | round trip: the decimal text of any 32-bit integer parses back to that integer |
| JuickUsers.ToXml | src/main/java/com/juick/xmpp/extensions/JuickUser.java:59-69 | the text is a self-closing `user` element in the Juick namespace |
| JuickUsers.FromAttrs | src/main/java/com/juick/xmpp/extensions/JuickUser.java:48-54 | the uid is 0 when absent and the parsed integer when present; a malformed uid fails as `parseInt` does; the uname is taken as is |
| JuickUsers.ParseUser | src/main/java/com/juick/xmpp/extensions/JuickUser.java:47-57 | the user comes from the start tag's attributes, and the cursor ends where `skip` leaves it |
| JuickUsers.Parse | src/main/java/com/juick/xmpp/extensions/JuickUser.java:47-57 | the method agrees with `ParseUser` |
| JuickUsers.LookupWritten | src/main/java/com/juick/xmpp/extensions/JuickUser.java:59-69 | uid is written only when positive and uname only when non-empty |
| JuickUsers.ToXmlIsQuoted | src/main/java/com/juick/xmpp/extensions/JuickUser.java:59-69 | the element written is its opening, the attributes of `WrittenAttrs` in single quotes with escaped values, and `/>` (the id's digits need no escaping); a name without tab, line break or unprintable characters makes every written value read back unchanged |
| JuickUsers.ParseWritten | src/main/java/com/juick/xmpp/extensions/JuickUser.java:47-69 | round trip: parsing the written user gives the user back, with a non-positive uid read as 0 and an empty name as absent |
| Presences.PresenceXml | src/main/java/com/juick/xmpp/Presence.java:126-148 | the text starts with the presence start tag and ends with `</presence>` |
| Presences.Absorb | src/main/java/com/juick/xmpp/Presence.java:87-98 | a text child never touches the children; a priority changes only to the value of non-empty text that parses as an integer |
| Presences.PresenceBody | src/main/java/com/juick/xmpp/Presence.java:82-115 | the body loop ends on the presence's end tag |
| Presences.PresenceTurn | src/main/java/com/juick/xmpp/Presence.java:84-114 | one round of the body loop ends on the end tag when it finishes the loop |
| Presences.BodyAtText | src/main/java/com/juick/xmpp/Presence.java:87-98 | on status, show or priority the loop reads the tag text and absorbs it |
| Presences.BodyAtChild | src/main/java/com/juick/xmpp/Presence.java:99-113 | any other element goes to the child parsers; a parsed child is appended |
| Presences.BodyAtOther | src/main/java/com/juick/xmpp/Presence.java:83-84 | events that are neither start tags nor the end tag are passed over |
| Presences.PresenceParse | src/main/java/com/juick/xmpp/Presence.java:78-117 | the envelope comes from the start tag and the cursor ends on `</presence>` |
| Presences.Presence.constructor | src/main/java/com/juick/xmpp/Presence.java:59-64 | a new presence has priority -255 and no show, status or children |
| Presences.Presence.Reply | src/main/java/com/juick/xmpp/Presence.java:119-124 | a fresh presence addressed back, with a default id, no type and nothing else copied |
| Presences.Presence.ReadTextChild | src/main/java/com/juick/xmpp/Presence.java:87-98 | reads the tag text as `TagText` does and updates the presence as `Absorb` says |
| Presences.Presence.ReadChild | src/main/java/com/juick/xmpp/Presence.java:99-113 | agrees with `ChildStep`, and appends the child when there is one |
| Presences.Presence.ToString | src/main/java/com/juick/xmpp/Presence.java:126-148 | the method agrees with `PresenceXml` |
| Presences.Parse | src/main/java/com/juick/xmpp/Presence.java:78-117 | the method builds a fresh presence whose envelope, content and cursor are those of `PresenceParse` |
| Presences.ReadBody | src/main/java/com/juick/xmpp/Presence.java:82-115 | the loop method agrees with `PresenceBody` |
| Presences.TextElementStep | src/main/java/com/juick/xmpp/Presence.java:87-98 | a written text child is read back and absorbed in one round |
| Presences.OptTextStep | src/main/java/com/juick/xmpp/Presence.java:130-140 | an optional show or status as written is read back |
| Presences.PriorityStep | src/main/java/com/juick/xmpp/Presence.java:91-98 | a written priority is read back exactly when it lies in -128..127, and otherwise nothing was written |
| Presences.ShowStep | src/main/java/com/juick/xmpp/Presence.java:130-132 | the written show is read back into a fresh presence |
| Presences.TailStep | src/main/java/com/juick/xmpp/Presence.java:134-140 | the written priority and status are read back after the show |
| Presences.ContentStep | src/main/java/com/juick/xmpp/Presence.java:126-140 | the written show, priority and status are read back in order |
| Presences.ContentHead | src/main/java/com/juick/xmpp/Presence.java:130-140 | the written content is the show part, then the priority part, then the status part |
| Presences.BodyWritten | src/main/java/com/juick/xmpp/Presence.java:82-115 | the body loop over written content ends on `</presence>` with the content read back |
| Presences.WrittenIsRead | src/main/java/com/juick/xmpp/Presence.java:127-140 | for a plain envelope, and show and status without control characters or carriage returns, the start tag written is the quoted one and the text of show and status decodes to their values |
| Presences.ParseWritten | src/main/java/com/juick/xmpp/Presence.java:78-148 | round trip: under the same conditions, a childless presence as written parses back to the same envelope and content; a priority outside -128..127 comes back as -255 |
| DiscoInfos.DiscoInfo.constructor | src/main/java/com/juick/xmpp/extensions/DiscoInfo.java:37-38 | a new disco#info holds no identities and no features |
| DiscoInfos.DiscoInfo.AddIdentity | src/main/java/com/juick/xmpp/extensions/DiscoInfo.java:45-51 | appends exactly one identity with the three given fields |
| DiscoInfos.DiscoInfo.AddFeature | src/main/java/com/juick/xmpp/extensions/DiscoInfo.java:53-55 | appends exactly the feature |
| DiscoInfos.DiscoInfo.ToString | src/main/java/com/juick/xmpp/extensions/DiscoInfo.java:82-93 | the method writes `QueryXml` of the identities and features |
| DiscoInfos.WriteIdentities | src/main/java/com/juick/xmpp/extensions/DiscoInfo.java:85-87 | the loop writes the concatenation of the identities' XML, in order |
| DiscoInfos.WriteFeatures | src/main/java/com/juick/xmpp/extensions/DiscoInfo.java:88-90 | the loop writes the concatenation of the features' XML, in order |
| DiscoInfos.LoopAsWritten | src/main/java/com/juick/xmpp/extensions/DiscoInfo.java:61-78 | the loop as written stops on the first event that is not a start tag |
| DiscoInfos.ParseQueryAsWritten | src/main/java/com/juick/xmpp/extensions/DiscoInfo.java:57-80 | the parse as written ends on a non-start-tag event, not on `</query>` |
| DiscoInfos.AsWrittenDropsSecondIdentity | src/main/java/com/juick/xmpp/extensions/DiscoInfo.java:61-78 | for a query with two identities, the parse as written returns only the first; the corrected parse returns both |
| DiscoInfos.QueryBody | src/main/java/com/juick/xmpp/extensions/DiscoInfo.java:61-78 | the corrected loop ends on the query's end tag |
| DiscoInfos.ParseQuery | src/main/java/com/juick/xmpp/extensions/DiscoInfo.java:57-80 | the corrected parse (the corrected half of the finding below) ends on the query's own end tag |
| DiscoInfos.ParseAsWritten | src/main/java/com/juick/xmpp/extensions/DiscoInfo.java:57-80 | the method as written builds a fresh disco#info with the identities, features and cursor of `ParseQueryAsWritten`; stanza parsing calls it |
| DiscoInfos.Parse | src/main/java/com/juick/xmpp/extensions/DiscoInfo.java:57-80 | the corrected method (the corrected half of the finding below, not called by stanza parsing) builds a fresh disco#info with the identities, features and cursor of `ParseQuery` |
| DiscoInfos.IdentityOfEvents | src/main/java/com/juick/xmpp/extensions/DiscoInfo.java:64-69 | the identity start tag a reader reports gives back the identity, and for a plain identity that tag is the one `toString` writes |
| DiscoInfos.IdentityXmlIsQuoted | src/main/java/com/juick/xmpp/extensions/DiscoInfo.java:101-115 | an identity whose category and type need no escaping (they are written verbatim) and whose values normalization keeps is written as its quoted attributes |
| DiscoInfos.FeatureXmlIsQuoted | src/main/java/com/juick/xmpp/extensions/DiscoInfo.java:88-90 | a feature whose `var` needs no escaping is written as its quoted attribute |
| DiscoInfos.QueryXmlIsQuoted | src/main/java/com/juick/xmpp/extensions/DiscoInfo.java:82-93 | a query of plain identities and features is written as the quoted element whose reading is `QueryEvents` |
| DiscoInfos.LookupIdentity | src/main/java/com/juick/xmpp/extensions/DiscoInfo.java:101-115 | the written identity attributes give back category, type and name |
| DiscoInfos.QueryBodyEmptyChild | src/main/java/com/juick/xmpp/extensions/DiscoInfo.java:62-76 | one empty child is recorded as an identity or feature by its name, and otherwise ignored |
| DiscoInfos.IdsRun | src/main/java/com/juick/xmpp/extensions/DiscoInfo.java:61-78 | written identities followed by features are all read back in order |
| DiscoInfos.FeatsRun | src/main/java/com/juick/xmpp/extensions/DiscoInfo.java:71-73 | written features are all read back in order |
| DiscoInfos.ParseQueryWritten | src/main/java/com/juick/xmpp/extensions/DiscoInfo.java:57-93 | round trip for the corrected parse: a plain query is written as the quoted element, and the identities come back as written, and each feature comes back as written (a null one as the text "null") |
| Streams.Added | src/main/java/com/juick/xmpp/Stream.java:113-135 | adding a listener keeps a list without duplicates: unchanged if present, appended otherwise |
| Streams.Removed | src/main/java/com/juick/xmpp/Stream.java:141-155 | removing drops exactly that listener and keeps the others |
| Streams.AddedIdempotent | src/main/java/com/juick/xmpp/Stream.java:113-117 | adding the same listener twice is adding it once |
| Streams.RemovedAdded | src/main/java/com/juick/xmpp/Stream.java:113-143 | removing a listener just added restores the list |
| Streams.IqKeyMatches | src/main/java/com/juick/xmpp/Stream.java:137-139 | an iq from `jid` with id `id` has the key under which `addListener(jid, id, l)` registers |
| Streams.SentOnce | src/main/java/com/juick/xmpp/Stream.java:176-188 | on an open writer `send` appends the text once; on a closed one it writes nothing and every stream listener is told of the failure |
| Streams.CloseEndsSession | src/main/java/com/juick/xmpp/Stream.java:168-174 | after `close` the stream is logged out and closed, and the closing tag was written if the writer was open |
| Streams.NothingAfterClose | src/main/java/com/juick/xmpp/Stream.java:168-188 | nothing sent after `close` reaches the output |
| Streams.CorrelatedOnce | src/main/java/com/juick/xmpp/Stream.java:236-239 | a correlated listener gets the matching iq once and is then removed; a second iq with the key goes to the general listeners |
| Streams.BroadcastWhenUncorrelated | src/main/java/com/juick/xmpp/Stream.java:240-244 | an iq without a correlated listener is offered to every iq listener |
| Streams.ErrorReplyOnce | src/main/java/com/juick/xmpp/Stream.java:245-247 | an error reply is sent iff no listener took the iq |
| Streams.ErrorReplyIsError | src/main/java/com/juick/xmpp/Iq.java:78-86 | the error reply is the `error()` iq, addressed to the sender with the same id |
| Streams.MessageRead | src/main/java/com/juick/xmpp/Stream.java:257-262 | a message is consumed to its end tag |
| Streams.PresenceRead | src/main/java/com/juick/xmpp/Stream.java:250-255 | a presence is consumed to its end tag |
| Streams.IqRead | src/main/java/com/juick/xmpp/Stream.java:232-248 | an iq is consumed to its end tag |
| Streams.ErrorRead | src/main/java/com/juick/xmpp/Stream.java:227-230 | a stream error is consumed to its end tag |
| Streams.ConditionIsFirstChild | src/main/java/com/juick/xmpp/Stream.java:227-229 | the condition passed to `connectionFailed` is the name of the first start tag after the error's, whatever text comes before it |
| Streams.NoChildNoCondition | src/main/java/com/juick/xmpp/Stream.java:227-229 | when the first event after the text is not a start tag, the condition is empty |
| Streams.PrettyErrorCondition | src/main/java/com/juick/xmpp/Stream.java:227-229 | a pretty-printed `not-well-formed` error, with white space before the condition element, has the condition `not-well-formed` |
| Streams.ElementStep | src/main/java/com/juick/xmpp/Stream.java:200-217 | every element that does not stop the loop is consumed |
| Streams.ErrorEndsLoop | src/main/java/com/juick/xmpp/Stream.java:211-213 | an `error` element ends `parse` with the connection failed on its condition |
| Streams.LoopGrows | src/main/java/com/juick/xmpp/Stream.java:190-225 | `parse` only appends output and trace, never changes login, and only removes pending listeners |
| Streams.ElementGrows | src/main/java/com/juick/xmpp/Stream.java:200-217 | one element only appends output and trace |
| Streams.Stream.constructor | src/main/java/com/juick/xmpp/Stream.java:68-76 | a new stream has an open writer, empty output, no listeners and is logged out |
| Streams.Stream.RestartStream | src/main/java/com/juick/xmpp/Stream.java:86-91 | a new parser on the input and a new open writer |
| Streams.Stream.AddChildParser | src/main/java/com/juick/xmpp/Stream.java:105-107 | registers the parser under its namespace, replacing any other |
| Streams.Stream.RemoveChildParser | src/main/java/com/juick/xmpp/Stream.java:109-111 | unregisters that namespace only |
| Streams.Stream.AddStreamListener | src/main/java/com/juick/xmpp/Stream.java:113-117 | the stream listeners become `Added` |
| Streams.Stream.AddMessageListener | src/main/java/com/juick/xmpp/Stream.java:119-123 | the message listeners become `Added` |
| Streams.Stream.AddPresenceListener | src/main/java/com/juick/xmpp/Stream.java:125-129 | the presence listeners become `Added` |
| Streams.Stream.AddIqListener | src/main/java/com/juick/xmpp/Stream.java:131-135 | the iq listeners become `Added` |
| Streams.Stream.AddCorrelated | src/main/java/com/juick/xmpp/Stream.java:137-139 | the listener is registered under `jid + "\n" + id`, replacing any earlier one |
| Streams.Stream.RemoveStreamListener | src/main/java/com/juick/xmpp/Stream.java:141-143 | returns whether the listener was there; afterwards it is not |
| Streams.Stream.RemoveMessageListener | src/main/java/com/juick/xmpp/Stream.java:145-147 | returns whether the listener was there; afterwards it is not |
| Streams.Stream.RemovePresenceListener | src/main/java/com/juick/xmpp/Stream.java:149-151 | returns whether the listener was there; afterwards it is not |
| Streams.Stream.RemoveIqListener | src/main/java/com/juick/xmpp/Stream.java:153-155 | returns whether the listener was there; afterwards it is not |
| Streams.Stream.NotifyAll | src/main/java/com/juick/xmpp/Stream.java:277-279 | every listener of the list is called once, in order |
| Streams.Stream.Write | src/main/java/com/juick/xmpp/StreamClient.java:49-50 | a direct write appends to an open writer and throws on a closed one, leaving the output as it was |
| Streams.Stream.Reject | src/main/java/com/juick/xmpp/StreamClient.java:55-56 | logs out and tells every stream listener that authentication failed |
| Streams.Stream.Accept | src/main/java/com/juick/xmpp/StreamComponent.java:61-62 | logs in and tells every stream listener the stream is ready |
| Streams.Stream.ConnectionFailed | src/main/java/com/juick/xmpp/Stream.java:268-280 | closes the writer when logged in and tells every stream listener of the failure |
| Streams.Stream.Send | src/main/java/com/juick/xmpp/Stream.java:180-188 | the state after `send` is `Sent` |
| Streams.Stream.Logoff | src/main/java/com/juick/xmpp/Stream.java:157-166 | logs out and closes the writer; closing a closed writer is a failure told to the listeners |
| Streams.Stream.Close | src/main/java/com/juick/xmpp/Stream.java:168-174 | the state after `close` is `Closed` |
| Streams.Stream.OfferIq | src/main/java/com/juick/xmpp/Stream.java:241-243 | every iq listener is offered the iq, and the result is whether any took it |
| Streams.Stream.Deliver | src/main/java/com/juick/xmpp/Stream.java:236-244 | the correlated listener if any, else all iq listeners; the result says whether it was taken |
| Streams.Stream.SendError | src/main/java/com/juick/xmpp/Stream.java:246 | sends the iq's error reply |
| Streams.Stream.Dispatch | src/main/java/com/juick/xmpp/Stream.java:234-247 | the state after dispatching an iq is `Answered` under its key |
| Streams.Stream.Iq | src/main/java/com/juick/xmpp/Stream.java:232-248 | the method agrees with `IqRead`, and a failure changes nothing |
| Streams.Stream.Presence | src/main/java/com/juick/xmpp/Stream.java:250-255 | the method agrees with `PresenceRead`, and a failure changes nothing |
| Streams.Stream.Message | src/main/java/com/juick/xmpp/Stream.java:257-262 | the method agrees with `MessageRead`, and a failure changes nothing |
| Streams.Stream.Error | src/main/java/com/juick/xmpp/Stream.java:227-230 | the method agrees with `ErrorRead`, and a failure changes nothing |
| Streams.Stream.Catch | src/main/java/com/juick/xmpp/Stream.java:219-223 | malformed XML is answered with an invalid-xml stream error and fails the connection; any other failure is passed on |
| Streams.Stream.Element | src/main/java/com/juick/xmpp/Stream.java:200-217 | the method agrees with `ElementStep` |
| Streams.Stream.Turn | src/main/java/com/juick/xmpp/Stream.java:191-222 | one turn of the loop either ends `parse` with the outcome of `Loop` from where it started, or moves the cursor forward leaving `Loop` unchanged |
| Streams.Stream.Parse | src/main/java/com/juick/xmpp/Stream.java:190-225 | the loop method ends in the state and outcome of `Loop` |
| LegacyStreams.WithSender | src/com/juick/xmpp/Stream.java:213-215 | a sender-less iq is given the server host as sender; everything else is kept |
| LegacyStreams.SenderlessIq | src/com/juick/xmpp/Stream.java:213-228 | a sender-less iq is correlated under `host + "\n" + id`, and its error reply goes to the host |
| LegacyStreams.LegacyPresenceRead | src/com/juick/xmpp/Stream.java:206-210 | a presence is consumed to its end tag |
| LegacyStreams.LegacyIqRead | src/com/juick/xmpp/Stream.java:211-229 | an iq is consumed to its end tag |
| LegacyStreams.LegacyElementStep | src/com/juick/xmpp/Stream.java:200-232 | every element is consumed |
| LegacyStreams.TextEndsLoop | src/com/juick/xmpp/Stream.java:199-234 | the loop ends on the first event that is not a start tag, and the final `skip` on a text event does nothing |
| LegacyStreams.AnsweredRepliesOnly | src/com/juick/xmpp/Stream.java:217-229 | dispatching an iq writes nothing or one error reply |
| LegacyStreams.ElementRepliesOnly | src/com/juick/xmpp/Stream.java:200-232 | one element writes nothing but error replies |
| LegacyStreams.LegacyLoopRepliesOnly | src/com/juick/xmpp/Stream.java:198-235 | the whole `parse` writes nothing but error replies |
| LegacyStreams.LegacyStream.constructor | src/com/juick/xmpp/Stream.java:96-107 | the server is the address's host when none or an empty one is given; the stream is logged out |
| LegacyStreams.LegacyStream.AddChildParser | src/com/juick/xmpp/Stream.java:124-126 | registers the parser under its namespace |
| LegacyStreams.LegacyStream.RemoveChildParser | src/com/juick/xmpp/Stream.java:128-130 | unregisters that namespace only |
| LegacyStreams.LegacyStream.AddStreamListener | src/com/juick/xmpp/Stream.java:132-136 | the stream listeners become `Added` |
| LegacyStreams.LegacyStream.AddMessageListener | src/com/juick/xmpp/Stream.java:138-142 | the message listeners become `Added` |
| LegacyStreams.LegacyStream.AddPresenceListener | src/com/juick/xmpp/Stream.java:144-148 | the presence listeners become `Added` |
| LegacyStreams.LegacyStream.AddIqListener | src/com/juick/xmpp/Stream.java:150-154 | the iq listeners become `Added` |
| LegacyStreams.LegacyStream.AddCorrelated | src/com/juick/xmpp/Stream.java:156-158 | the listener is registered under `jid + "\n" + id` |
| LegacyStreams.LegacyStream.RemoveStreamListener | src/com/juick/xmpp/Stream.java:160-162 | returns whether the listener was there; afterwards it is not |
| LegacyStreams.LegacyStream.RemoveMessageListener | src/com/juick/xmpp/Stream.java:164-166 | returns whether the listener was there; afterwards it is not |
| LegacyStreams.LegacyStream.RemovePresenceListener | src/com/juick/xmpp/Stream.java:168-170 | returns whether the listener was there; afterwards it is not |
| LegacyStreams.LegacyStream.RemoveIqListener | src/com/juick/xmpp/Stream.java:172-174 | returns whether the listener was there; afterwards it is not |
| LegacyStreams.LegacyStream.NotifyAll | src/com/juick/xmpp/Stream.java:250-252 | every listener of the list is called once, in order |
| LegacyStreams.LegacyStream.ConnectionFailed | src/com/juick/xmpp/Stream.java:241-253 | closes the writer when logged in and tells every stream listener |
| LegacyStreams.LegacyStream.Send | src/com/juick/xmpp/Stream.java:189-196 | the state after `send` is `Sent` |
| LegacyStreams.LegacyStream.Logoff | src/com/juick/xmpp/Stream.java:178-187 | the state after `logoff` is `LoggedOff` |
| LegacyStreams.LegacyStream.OfferIq | src/com/juick/xmpp/Stream.java:223-225 | every iq listener is offered the iq, and the result is whether any took it |
| LegacyStreams.LegacyStream.Deliver | src/com/juick/xmpp/Stream.java:218-226 | the correlated listener if any, else all iq listeners |
| LegacyStreams.LegacyStream.SendError | src/com/juick/xmpp/Stream.java:227-229 | sends the iq's error reply |
| LegacyStreams.LegacyStream.Dispatch | src/com/juick/xmpp/Stream.java:216-229 | the state after dispatching an iq is `Answered` under its key |
| LegacyStreams.LegacyStream.GiveSender | src/com/juick/xmpp/Stream.java:213-215 | the stanza's envelope becomes `WithSender` |
| LegacyStreams.LegacyStream.Iq | src/com/juick/xmpp/Stream.java:211-229 | the method agrees with `LegacyIqRead`, and a failure changes nothing |
| LegacyStreams.LegacyStream.Element | src/com/juick/xmpp/Stream.java:200-232 | the method agrees with `LegacyElementStep` |
| LegacyStreams.LegacyStream.Parse | src/com/juick/xmpp/Stream.java:198-235 | the loop method ends in the state and outcome of `LegacyLoop` |
| StreamServers.TlsOffered | src/main/java/com/juick/xmpp/StreamServer.java:188 | starttls is offered iff a listener is set, the stream is not secured and the peer is not a broken-SSL host; a missing host list is a null dereference |
| StreamServers.OpenStreamTells | src/main/java/com/juick/xmpp/StreamServer.java:182-194 | the opening always starts with the header, and from it one can tell whether features and starttls were sent |
| StreamServers.AdmittedAfterResult | src/main/java/com/juick/xmpp/StreamServer.java:212-235 | after a valid dialback result for a peer, exactly the stanzas to this domain from that peer's domain are added to those admitted |
| StreamServers.NoResultNoAdmission | src/main/java/com/juick/xmpp/StreamServer.java:220-235 | with no valid dialback result, no stanza is admitted |
| StreamServers.ResultStep | src/main/java/com/juick/xmpp/StreamServer.java:86-102 | a `db:result` never writes, and when the loop goes on the key was read |
| StreamServers.VerifyStep | src/main/java/com/juick/xmpp/StreamServer.java:103-122 | a `db:verify` that goes on is consumed |
| StreamServers.RouteRead | src/main/java/com/juick/xmpp/StreamServer.java:123-129 | a routed stanza is consumed |
| StreamServers.OtherStep | src/main/java/com/juick/xmpp/StreamServer.java:130-140 | the remaining branches never move the cursor back |
| StreamServers.ServerStep | src/main/java/com/juick/xmpp/StreamServer.java:85-140 | the dispatch never moves the cursor back |
| StreamServers.TurnAt | src/main/java/com/juick/xmpp/StreamServer.java:76-84 | each round moves forward and counts at most one packet |
| StreamServers.ServerLoopCloses | src/main/java/com/juick/xmpp/StreamServer.java:72-154 | however `parse` ends (end of document, break, end of stream or another exception) the stream is closed and logged out; the packet count never decreases |
| StreamServers.UncheckedNotRouted | src/main/java/com/juick/xmpp/StreamServer.java:123-129 | a stanza that fails `checkFromTo` is not dispatched and changes nothing |
| StreamServers.OwnDomainResultHalts | src/main/java/com/juick/xmpp/StreamServer.java:90-94 | a dialback result claiming this server's own domain stops the loop |
| StreamServers.VerifyAlwaysInvalid | src/main/java/com/juick/xmpp/StreamServer.java:109-122 | since the key check is commented out, every `db:verify` is answered `type='invalid'` |
| StreamServers.HeaderFault | src/main/java/com/juick/xmpp/StreamServer.java:157-165 | a header that is not a start tag throws a null reference iff it has no name or is an end tag named `stream` (no `stream` prefix bound); any other end tag throws "only START_TAG can have attributes" |
| StreamServers.FaultWire | src/main/java/com/juick/xmpp/StreamServer.java:157-165 | an end tag of another name than `stream` fails the connection with "stream from … invalid" before the attribute read throws; a null-reference header changes nothing |
| StreamServers.GreetingStreamId | src/main/java/com/juick/xmpp/StreamServer.java:166-169 | the stream id is the peer's id, or a fresh UUID when it sent none |
| StreamServers.BannedGetsNoHeader | src/main/java/com/juick/xmpp/StreamServer.java:173-176 | a banned peer is closed without a stream header |
| StreamServers.ValidHeaderAnswered | src/main/java/com/juick/xmpp/StreamServer.java:157-180 | any other peer gets exactly one opening stream, with features when it sent a version |
| StreamServers.StreamServer.constructor | src/main/java/com/juick/xmpp/StreamServer.java:55-70 | a new server stream has no admitted peers, no stream id, no host lists and no packets |
| StreamServers.StreamServer.SetListener | src/main/java/com/juick/xmpp/StreamServer.java:57-58 | records whether a listener is set |
| StreamServers.StreamServer.SetBrokenSslHosts | src/main/java/com/juick/xmpp/StreamServer.java:61-62 | records the broken-SSL hosts |
| StreamServers.StreamServer.SetBannedHosts | src/main/java/com/juick/xmpp/StreamServer.java:63-64 | records the banned hosts |
| StreamServers.StreamServer.SendOpenStream | src/main/java/com/juick/xmpp/StreamServer.java:182-194 | the state and outcome are those of `Opening` |
| StreamServers.StreamServer.Greet | src/main/java/com/juick/xmpp/StreamServer.java:160-178 | the state, stream id and outcome are those of `GreetingAt` |
| StreamServers.StreamServer.Answer | src/main/java/com/juick/xmpp/StreamServer.java:166-178 | the state, stream id and outcome are those of `AnswerAt` |
| StreamServers.StreamServer.Admit | src/main/java/com/juick/xmpp/StreamServer.java:173-178 | the state and outcome are those of `Admission` |
| StreamServers.StreamServer.Handshake | src/main/java/com/juick/xmpp/StreamServer.java:157-180 | a failing `next()` changes nothing; otherwise the result is `GreetingAt` on the header read |
| StreamServers.StreamServer.SendDialbackResult | src/main/java/com/juick/xmpp/StreamServer.java:212-218 | sends the result, admits the peer iff the type is `valid`, and fails on a null type |
| StreamServers.StreamServer.CheckFromTo | src/main/java/com/juick/xmpp/StreamServer.java:220-235 | the loop returns `Admitted` |
| StreamServers.StreamServer.DialbackResult | src/main/java/com/juick/xmpp/StreamServer.java:86-102 | the method agrees with `ResultStep` |
| StreamServers.StreamServer.DialbackVerify | src/main/java/com/juick/xmpp/StreamServer.java:103-122 | the method agrees with `VerifyStep` |
| StreamServers.StreamServer.Route | src/main/java/com/juick/xmpp/StreamServer.java:123-129 | the method agrees with `RouteRead` |
| StreamServers.StreamServer.Other | src/main/java/com/juick/xmpp/StreamServer.java:130-140 | the method agrees with `OtherStep` |
| StreamServers.StreamServer.Element | src/main/java/com/juick/xmpp/StreamServer.java:85-140 | the method agrees with `ServerStep` |
| StreamServers.StreamServer.Round | src/main/java/com/juick/xmpp/StreamServer.java:76-141 | the method agrees with `TurnAt` |
| StreamServers.StreamServer.Parse | src/main/java/com/juick/xmpp/StreamServer.java:72-154 | the loop method ends in the state and packet count of `ServerLoop` |
| ServerDialbacks.KeyMessageInjective | src/main/java/com/juick/xmpp/StreamServerDialback.java:161-164 | the message the dialback key signs determines the receiving domain, the originating domain and the stream id |
| ServerDialbacks.ConstructorKeyUsesNullId | src/main/java/com/juick/xmpp/StreamServerDialback.java:58-61 | the constructor signs the key before the stream id is set, so the id part of the message is the text "null" |
| ServerDialbacks.DialbackSends | src/main/java/com/juick/xmpp/StreamServerDialback.java:64-70 | sends a `db:verify` only when there is a stream id to check, then always a `db:result` |
| ServerDialbacks.SkipThen | src/main/java/com/juick/xmpp/StreamServerDialback.java:105 | skipping an element moves forward and changes nothing else |
| ServerDialbacks.ResultTurn | src/main/java/com/juick/xmpp/StreamServerDialback.java:97-105 | a `db:result` that goes on is consumed |
| ServerDialbacks.VerifyTurn | src/main/java/com/juick/xmpp/StreamServerDialback.java:106-111 | a `db:verify` that goes on is consumed |
| ServerDialbacks.FeaturesTurn | src/main/java/com/juick/xmpp/StreamServerDialback.java:112-119 | a features element that goes on is consumed |
| ServerDialbacks.ErrorTurn | src/main/java/com/juick/xmpp/StreamServerDialback.java:124-126 | a stream error that goes on is consumed |
| ServerDialbacks.OtherTurn | src/main/java/com/juick/xmpp/StreamServerDialback.java:127-130 | an unhandled element that goes on is consumed |
| ServerDialbacks.LinkStep | src/main/java/com/juick/xmpp/StreamServerDialback.java:96-130 | the dispatch never moves the cursor back |
| ServerDialbacks.LinkTurn | src/main/java/com/juick/xmpp/StreamServerDialback.java:91-94 | each round moves forward |
| ServerDialbacks.PeerHeader | src/main/java/com/juick/xmpp/StreamServerDialback.java:79-89 | reading the peer's header moves forward when it goes on |
| ServerDialbacks.Begin | src/main/java/com/juick/xmpp/StreamServerDialback.java:75-89 | sending the header and reading the peer's moves forward when it goes on |
| ServerDialbacks.Terminal | src/main/java/com/juick/xmpp/StreamServerDialback.java:132-137 | the listener hears `finished` (dirty iff end of stream) for a normal end or end of stream, and `exception` for anything else |
| ServerDialbacks.LoopGrown | src/main/java/com/juick/xmpp/StreamServerDialback.java:91-131 | the loop only appends output and trace |
| ServerDialbacks.HeaderFirst | src/main/java/com/juick/xmpp/StreamServerDialback.java:75-77 | the first thing the handshake writes is the stream header |
| ServerDialbacks.OneTerminalCall | src/main/java/com/juick/xmpp/StreamServerDialback.java:72-138 | with a listener, the handshake ends with exactly one `finished` or `exception` call, the last notice; without one, the null dereference leaves and no such call is made |
| ServerDialbacks.BadFirstPacket | src/main/java/com/juick/xmpp/StreamServerDialback.java:79-83 | a peer header without an id sends nothing after the header and reports "invalid first packet" to the listener |
| ServerDialbacks.VersionlessPeerGetsDialback | src/main/java/com/juick/xmpp/StreamServerDialback.java:85-89 | a peer without a version is sent the dialback right after the header, and the stream id becomes the peer's |
| ServerDialbacks.FeaturesChoice | src/main/java/com/juick/xmpp/StreamServerDialback.java:112-119 | on features, either starttls is sent, exactly when it may be and the listener wants it, or the dialback is |
| ServerDialbacks.ReadyOnValidResult | src/main/java/com/juick/xmpp/StreamServerDialback.java:97-105 | one element makes the stream ready iff it is a `db:result` of type valid |
| ServerDialbacks.LoopReadyOnValidResult | src/main/java/com/juick/xmpp/StreamServerDialback.java:91-131 | the stream becomes ready only if some `db:result` of type valid was read |
| ServerDialbacks.StreamServerDialback.constructor | src/main/java/com/juick/xmpp/StreamServerDialback.java:53-62 | the key is generated when none is given; the stream id is a fresh UUID; not secured, not ready |
| ServerDialbacks.StreamServerDialback.SetConnectionListener | src/main/java/com/juick/xmpp/StreamServerDialback.java:145-147 | records whether a listener is set |
| ServerDialbacks.StreamServerDialback.SetSecured | src/main/java/com/juick/xmpp/StreamServerDialback.java:157-159 | records the secured flag |
| ServerDialbacks.StreamServerDialback.SendDialbackVerify | src/main/java/com/juick/xmpp/StreamServerDialback.java:140-143 | sends the `db:verify` for the stream id and key |
| ServerDialbacks.StreamServerDialback.ProcessDialback | src/main/java/com/juick/xmpp/StreamServerDialback.java:64-70 | the state after it is `Dialback` |
| ServerDialbacks.StreamServerDialback.ReadResult | src/main/java/com/juick/xmpp/StreamServerDialback.java:97-105 | the method agrees with `ResultTurn` |
| ServerDialbacks.StreamServerDialback.ReadVerify | src/main/java/com/juick/xmpp/StreamServerDialback.java:106-111 | the method agrees with `VerifyTurn` |
| ServerDialbacks.StreamServerDialback.ReadFeatures | src/main/java/com/juick/xmpp/StreamServerDialback.java:112-119 | the method agrees with `FeaturesTurn` |
| ServerDialbacks.StreamServerDialback.ReadError | src/main/java/com/juick/xmpp/StreamServerDialback.java:124-126 | the method agrees with `ErrorTurn` |
| ServerDialbacks.StreamServerDialback.ReadOther | src/main/java/com/juick/xmpp/StreamServerDialback.java:127-130 | the method agrees with `OtherTurn` |
| ServerDialbacks.StreamServerDialback.Element | src/main/java/com/juick/xmpp/StreamServerDialback.java:96-130 | the method agrees with `LinkStep` |
| ServerDialbacks.StreamServerDialback.Round | src/main/java/com/juick/xmpp/StreamServerDialback.java:91-131 | the method agrees with `LinkTurn` |
| ServerDialbacks.StreamServerDialback.ReadPeerHeader | src/main/java/com/juick/xmpp/StreamServerDialback.java:79-89 | the method agrees with `PeerHeader` |
| ServerDialbacks.StreamServerDialback.Open | src/main/java/com/juick/xmpp/StreamServerDialback.java:75-89 | the method agrees with `Begin` |
| ServerDialbacks.StreamServerDialback.Drain | src/main/java/com/juick/xmpp/StreamServerDialback.java:91-131 | the loop method ends in the state and exit of `LinkLoop` |
| ServerDialbacks.StreamServerDialback.Conclude | src/main/java/com/juick/xmpp/StreamServerDialback.java:132-137 | the method agrees with `Finish` |
| ServerDialbacks.StreamServerDialback.Handshake | src/main/java/com/juick/xmpp/StreamServerDialback.java:72-138 | the method ends in the state and outcome of `Handshaken` |
| StreamClients.PlainMessageInjective | src/main/java/com/juick/xmpp/StreamClient.java:61 | the SASL PLAIN message determines the bare address, the user name and the password |
| StreamClients.BindResource | src/main/java/com/juick/xmpp/StreamClient.java:87-89 | a resource is requested iff the address has a non-empty one |
| StreamClients.BindXml | src/main/java/com/juick/xmpp/StreamClient.java:81-91 | the bind request is an iq, with its start tag and `</iq>` |
| StreamClients.TagEnd | src/main/java/com/juick/xmpp/StreamClient.java:95-99 | `skipTag` stops on an end tag of that name after the start |
| StreamClients.TagEndFirst | src/main/java/com/juick/xmpp/StreamClient.java:95-99 | ... and on the first one |
| StreamClients.Offered | src/main/java/com/juick/xmpp/StreamClient.java:53-58 | reading the features moves forward when it does not fail |
| StreamClients.Greeting | src/main/java/com/juick/xmpp/StreamClient.java:49-58 | the greeting moves forward when it does not fail |
| StreamClients.Authentication | src/main/java/com/juick/xmpp/StreamClient.java:60-75 | authentication moves forward when it does not fail |
| StreamClients.Restarted | src/main/java/com/juick/xmpp/StreamClient.java:77-79 | the restart is never a refusal, and it goes on inside the new input |
| StreamClients.BindPhase | src/main/java/com/juick/xmpp/StreamClient.java:77-92 | the binding phase goes on inside the new input |
| StreamClients.FeaturesGate | src/main/java/com/juick/xmpp/StreamClient.java:49-58 | the client gives up iff starttls is required or PLAIN is unavailable, and then it has written only its header and told every listener |
| StreamClients.AuthenticationOutcome | src/main/java/com/juick/xmpp/StreamClient.java:63-75 | logged in iff the answer is `success`: a login happens only on `success`, and on an open writer a `success` read to its end tag always logs in; any other named answer logs out and tells every listener its name |
| StreamClients.GreetingWrites | src/main/java/com/juick/xmpp/StreamClient.java:49-50 | the greeting writes exactly the stream header |
| StreamClients.AuthenticationWrites | src/main/java/com/juick/xmpp/StreamClient.java:60-64 | authentication writes exactly the base64 PLAIN auth element |
| StreamClients.BindPhaseWrites | src/main/java/com/juick/xmpp/StreamClient.java:77-92 | binding writes a new header and the bind iq, and registers the client for the bind id |
| StreamClients.CredentialsWrites | src/main/java/com/juick/xmpp/StreamClient.java:60-92 | after a `success`, the output is auth, header and bind, in that order |
| StreamClients.LoginWrites | src/main/java/com/juick/xmpp/StreamClient.java:47-93 | a completed handshake writes header, auth, header and bind, and leaves the client logged in and waiting for the bind answer |
| StreamClients.IqAnswerTaken | src/main/java/com/juick/xmpp/StreamClient.java:109-126 | `onIq` takes an iq iff its first child is a binding or a session |
| StreamClients.IqAnswerKeepsBareAddress | src/main/java/com/juick/xmpp/StreamClient.java:116-119 | the address only ever changes its resource, to the one the server bound |
| StreamClients.BindingStartsSession | src/main/java/com/juick/xmpp/StreamClient.java:115-123 | a binding answer tells every listener the stream is ready, then sends the session request |
| StreamClients.StreamClient.constructor | src/main/java/com/juick/xmpp/StreamClient.java:42-45 | a new client stream with the password, logged out, with empty output |
| StreamClients.StreamClient.SkipTag | src/main/java/com/juick/xmpp/StreamClient.java:95-99 | the loop method agrees with `TagEnd` |
| StreamClients.StreamClient.ReadFeatures | src/main/java/com/juick/xmpp/StreamClient.java:53-58 | the method agrees with `Offered` |
| StreamClients.StreamClient.Greet | src/main/java/com/juick/xmpp/StreamClient.java:49-58 | the method agrees with `Greeting` |
| StreamClients.StreamClient.Authenticate | src/main/java/com/juick/xmpp/StreamClient.java:60-75 | the method agrees with `Authentication` |
| StreamClients.StreamClient.Restart | src/main/java/com/juick/xmpp/StreamClient.java:77-79 | the method agrees with `Restarted` on the new input |
| StreamClients.StreamClient.BindText | src/main/java/com/juick/xmpp/StreamClient.java:81-90 | builds the bind iq text `BindXml` |
| StreamClients.StreamClient.RequestBinding | src/main/java/com/juick/xmpp/StreamClient.java:84-92 | registers the binding parser and the correlated listener, and writes the request |
| StreamClients.StreamClient.Bind | src/main/java/com/juick/xmpp/StreamClient.java:77-92 | the method agrees with `BindPhase`, and the binding parser is registered exactly when it succeeds |
| StreamClients.StreamClient.Continue | src/main/java/com/juick/xmpp/StreamClient.java:60-92 | the method agrees with `Credentials` |
| StreamClients.StreamClient.Handshake | src/main/java/com/juick/xmpp/StreamClient.java:47-93 | the method agrees with `Login` |
| StreamClients.StreamClient.Session | src/main/java/com/juick/xmpp/StreamClient.java:101-107 | sends the session request |
| StreamClients.StreamClient.OnIq | src/main/java/com/juick/xmpp/StreamClient.java:109-126 | the new address, state and result are those of `IqAnswer` |
| StreamComponents.Opened | src/main/java/com/juick/xmpp/StreamComponent.java:42-54 | opening goes on, or is refused, one event further, and goes on only on a start tag |
| StreamComponents.Reply | src/main/java/com/juick/xmpp/StreamComponent.java:56-68 | a `handshake` answer is consumed; any other answer is not |
| StreamComponents.OpenedWrites | src/main/java/com/juick/xmpp/StreamComponent.java:42-43 | opening writes exactly the component header |
| StreamComponents.ReplyWrites | src/main/java/com/juick/xmpp/StreamComponent.java:56 | the reply writes exactly the handshake with the digest of the server's id and the password |
| StreamComponents.HeaderFirst | src/main/java/com/juick/xmpp/StreamComponent.java:40-69 | the first thing written is the header |
| StreamComponents.WrongServerRefused | src/main/java/com/juick/xmpp/StreamComponent.java:46-54 | refused iff the server's `from` is not the expected address; then no digest is sent and every listener is told |
| StreamComponents.DigestSent | src/main/java/com/juick/xmpp/StreamComponent.java:42-56 | after a good header the output is the header, then `sha1Hex(id + password)`, with a missing id as "null" |
| StreamComponents.ReplyOutcome | src/main/java/com/juick/xmpp/StreamComponent.java:58-68 | logged in and ready iff the answer is `handshake`; otherwise logged out and every listener told the answer's name |
| StreamComponents.StreamComponent.constructor | src/main/java/com/juick/xmpp/StreamComponent.java:35-38 | a component stream without a `from` address, with the password |
| StreamComponents.StreamComponent.Open | src/main/java/com/juick/xmpp/StreamComponent.java:42-54 | the method agrees with `Opened` |
| StreamComponents.StreamComponent.Answer | src/main/java/com/juick/xmpp/StreamComponent.java:56-68 | the method agrees with `Reply` |
| StreamComponents.StreamComponent.Handshake | src/main/java/com/juick/xmpp/StreamComponent.java:40-69 | the method agrees with `Connect` |
| StreamComponentServers.HeaderCheck | src/main/java/com/juick/xmpp/StreamComponentServer.java:30-38 | a header passes only if it is a start tag |
| StreamComponentServers.HeaderCheckPasses | src/main/java/com/juick/xmpp/StreamComponentServer.java:30-38 | a header passes iff it is a `stream` start tag in the component and stream namespaces, addressed to this server |
| StreamComponentServers.InvalidStreamWhen | src/main/java/com/juick/xmpp/StreamComponentServer.java:31-35 | "invalid stream" is thrown iff the name is not `stream` or a declared namespace is the wrong one |
| StreamComponentServers.InvalidDomainBeforeHeader | src/main/java/com/juick/xmpp/StreamComponentServer.java:36-40 | "invalid domain" is thrown iff the header is otherwise good but addressed elsewhere; a failed check writes nothing |
| StreamComponentServers.Accepting | src/main/java/com/juick/xmpp/StreamComponentServer.java:30-40 | the header check is never a refusal; it goes on one event further |
| StreamComponentServers.Verdict | src/main/java/com/juick/xmpp/StreamComponentServer.java:41-52 | the verdict consumes the handshake element |
| StreamComponentServers.VerdictOutcome | src/main/java/com/juick/xmpp/StreamComponentServer.java:41-52 | logged in iff the handshake value is `sha1Hex(streamId + secret)`; then the ack is sent and listeners hear ready, otherwise the refusal is sent and they hear the failure |
| StreamComponentServers.OneStreamId | src/main/java/com/juick/xmpp/StreamComponentServer.java:28-53 | a completed handshake writes the header with this server's stream id and then exactly one of ack or refusal, matching the digest of that same id |
| StreamComponentServers.StreamComponentServer.constructor | src/main/java/com/juick/xmpp/StreamComponentServer.java:23-27 | the secret is the password and the stream id a fresh UUID |
| StreamComponentServers.StreamComponentServer.ReadHeader | src/main/java/com/juick/xmpp/StreamComponentServer.java:30-40 | the method agrees with `Accepting` |
| StreamComponentServers.StreamComponentServer.Verify | src/main/java/com/juick/xmpp/StreamComponentServer.java:41-52 | the method agrees with `Verdict`, with the login flag telling acceptance from refusal |
| StreamComponentServers.StreamComponentServer.Handshake | src/main/java/com/juick/xmpp/StreamComponentServer.java:28-53 | the method agrees with `Admission` |

## Left out

- Sockets, TLS and threads. Out of scope: the model has no network, so `openStreams`, `run`, `connect`, `restartParser` and the TLS upgrade after `proceed`/`starttls` (only the listener call is recorded) are not modelled.
- Concurrency. The listener lists are plain sequences, and `CopyOnWriteArrayList` semantics are not modelled.
- Timestamps and logging. `created`, `updated`, `received`, `updateTsRemoteData`, `logParser` and the loggers have no effect on what the model observes.
- Cryptography and randomness. SHA-1, SHA-256, HMAC, base64, the random-string generator and UUIDs are parameters of the model (`sha1Hex`, `mac`, `base64`, `uuid`, `secret`), not computed.
- Address parsing and escaping. `Jid` is not modelled. Its textual form is `local@domain/resource` without stringprep or escaping, and `JID.toString` of the older tree is taken to be the same.
- External parsers and texts. `StreamFeatures`, `StreamError`, `ResourceBinding`, `Handshake` and `XMPPError` are not modelled:
  - What `StreamFeatures.parse` reports is a parameter, and the element is read like `skip`.
  - A stream error's condition is the name of its first child element. Text before that element is passed over, and an error whose first event after its start tag that is not text is not a start tag has the condition "".
  - The binding parser is a parameter.
  - The component server's handshake value is the text of the next element.
  - The ack and refusal texts are parameters.
- Messages. `Message` is not modelled: a message is read to its end tag, and its listeners receive its envelope.
- Listener objects. They are identifiers.
  - Their calls are notices in a trace.
  - Their return values are parameters: `onIq` answers, `securing`.
  - `ConnectionListener` presence is a flag.
- Exception texts. `SocketException` is treated like `EOFException` in the catch clauses. The message of a Java `NullPointerException` or `ClassCastException` is one `NullReference` failure.
- Secured flag. `StreamServer.secured` is never set to true anywhere in the source, so the model keeps it as a field that only the constructor sets.
- StreamServers.HeaderFault: for an end tag named `stream` as the first event, what `getNamespace("stream")` returns depends on the parser implementation; the model takes the prefix as unbound, so the handshake throws a null reference, as for the component server.
- StreamComponentServers.HeaderCheck: an END_TAG named `stream` as the first event would throw from `getNamespace(null)` in a way that depends on the parser implementation; the model treats it as a null reference.
- Text.ParseInt: `Integer.parseInt` is modelled for optionally signed ASCII decimal digits within 32 bits; other failures are a `BadNumber` failure. Java also accepts the other Unicode decimal digits, which the model rejects.
- XmlPull.Parser.Next: `XmlPullParser` is not modelled; its input is the events it reports. The model does not cover entity expansion, namespaces declared on outer elements, or the parser's own error texts. The read-back lemmas take as given that a reader reports an attribute written as `name='escaped value'` (`QuotedAttr`) as that value, and decodes the five entities in text.
- Newer-tree `Stanza`. The newer tree's `Stanza` class is not modelled on its own: its `Iq` and `Presence` are modelled on the older `Stanza` (`Stanzas`), whose members they use under the same names.
- LegacyStreams.LegacyPresenceRead: the older tree's `Presence` class is not modelled. A presence is read to its end tag and its listeners receive its envelope; its show, priority, status and children are not read.
- Raw attributes. `Stanza.toString` writes from and to, and `DiscoInfo.toString` writes category, type and var, verbatim in single quotes. A value holding `'`, `<`, `&` or `"` gives text that does not read back, and `escapeXml10` drops control characters. The read-back lemmas below are stated only for values without these characters.
- Stanzas.ReadWrittenEnvelope: stated for a `PlainEnvelope` only, as explained under raw attributes.
- Iqs.ParseEmptyWritten: stated for a `PlainEnvelope` only; its text clause covers types other than error, and `Iqs.ParseErrorWritten` covers type error.
- Iqs.ParseUserWritten: stated for a `PlainEnvelope` and a user name that attribute normalization keeps; the user comes back as `Normalize(u)`, so a non-positive id and an empty name are not recovered.
- Presences.ParseWritten: stated for a `PlainEnvelope` and `PlainContent` only, so that `escapeXml10` drops nothing.
- DiscoInfos.ParseQueryWritten: stated for a `PlainQuery` only, since category, type and var are written verbatim.
- DiscoInfos.Parse: the corrected parse is a reference for the finding below; stanza parsing runs the as-written `ParseAsWritten`, as the program does.
- Presences.PresenceTurn, StreamServers.ServerStep, ServerDialbacks.LinkStep and the other per-element step functions only state cursor progress in their own `ensures`. Their effect on the stream is stated by the methods that agree with them and by the lemmas listed above.

## Findings

| source | as written | input that shows it | evidently intended | confidence | as-written member | corrected member |
|---|---|---|---|---|---|---|
| src/main/java/com/juick/xmpp/extensions/DiscoInfo.java:61-78 | the loop runs while `next()` returns START_TAG, so it stops at the END_TAG of the first self-closing `identity` or `feature` | `<query><identity category='client' …/><identity category='server' …/></query>` | read every identity and feature up to `</query>` | not executed | DiscoInfos.AsWrittenDropsSecondIdentity | DiscoInfos.ParseQueryWritten |
