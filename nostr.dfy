/**
 * The Nostr protocol data both wallet clients exchange with a relay: the connection
 * URI after URL parsing, events and their tags, the event-id preimage of NIP-01, and
 * subscription filters with the matching rule a relay applies to them (NIP-01).
 */
module Nostr {
  import opened Wrappers
  import opened Json
  import opened Text

  /** The URI scheme of a Nostr Wallet Connect connection string, as `URL.protocol` reports it. */
  const SCHEME := "nostr+walletconnect:"

  /** NIP-47 kinds: the client's request, and the wallet service's response. */
  const REQUEST_KIND := 23194
  const RESPONSE_KIND := 23195

  /**
   * A connection URI as the WHATWG URL parser splits it: `protocol`, `hostname`,
   * `pathname`, and the first value of each query parameter (`searchParams.get`).
   */
  datatype Url = Url(protocol: string, hostname: string, pathname: string, query: map<string, string>)

  /** `url.searchParams.get(name)`: None stands for `null`. */
  function QueryParam(url: Url, name: string): Option<string>
  {
    if name in url.query then Some(url.query[name]) else None
  }

  /** The wallet's public key in a connection URI: the host name, or else the path name with its first `//` removed. */
  function PubkeyOf(url: Url): (r: string)
    ensures url.hostname != "" ==> r == url.hostname
    ensures url.hostname == "" && "//" <= url.pathname ==> r == url.pathname[2..]
    ensures url.hostname == "" && (forall k :: !OccursAt(url.pathname, "//", k)) ==> r == url.pathname
    ensures url.hostname == "" ==>
      forall k :: FirstOccurrence(url.pathname, "//", k) ==> r == url.pathname[..k] + url.pathname[k + 2..]
  {
    if url.hostname != "" then url.hostname else ReplaceFirst(url.pathname, "//", "")
  }

  /** JavaScript truthiness of a `string | null`: present and non-empty. */
  predicate Present(v: Option<string>)
  {
    v.Some? && v.value != ""
  }

  type Tag = seq<string>

  /** A Nostr event (NIP-01). */
  datatype Event = Event(
    id: string,
    pubkey: string,
    createdAt: int,
    kind: int,
    tags: seq<Tag>,
    content: string,
    sig: string)

  /** Some tag of the list is `[name, value, ...]`. */
  predicate HasTag(tags: seq<Tag>, name: string, value: string)
  {
    exists i :: 0 <= i < |tags| && |tags[i]| >= 2 && tags[i][0] == name && tags[i][1] == value
  }

  function TagsJson(tags: seq<Tag>): Json
  {
    JArr(seq(|tags|, i requires 0 <= i < |tags| => JArr(seq(|tags[i]|, k requires 0 <= k < |tags[i]| => JStr(tags[i][k])))))
  }

  /** The NIP-01 id preimage: the array `[0, pubkey, created_at, kind, tags, content]`. */
  function Preimage(ev: Event): Json
  {
    JArr([JNum(0), JStr(ev.pubkey), JNum(ev.createdAt), JNum(ev.kind), TagsJson(ev.tags), JStr(ev.content)])
  }

  /**
   * The event id: the hex SHA-256 of the serialised preimage. Hashing and serialising
   * are primitives the caller supplies.
   */
  function EventId(sha256Hex: string -> string, stringify: Json -> string, ev: Event): string
  {
    sha256Hex(stringify(Preimage(ev)))
  }

  /** The id does not depend on the `id` and `sig` fields, so it can be set and signed after it is computed. */
  lemma EventIdIgnoresIdAndSig(sha256Hex: string -> string, stringify: Json -> string, ev: Event, id: string, sig: string)
    ensures EventId(sha256Hex, stringify, ev.(id := id, sig := sig)) == EventId(sha256Hex, stringify, ev)
  {
  }

  lemma {:induction false} TagsJsonInjective(t1: seq<Tag>, t2: seq<Tag>)
    requires TagsJson(t1) == TagsJson(t2)
    ensures t1 == t2
  {
    var a1, a2 := TagsJson(t1).items, TagsJson(t2).items;
    assert |t1| == |a1| == |a2| == |t2|;
    forall i | 0 <= i < |t1| ensures t1[i] == t2[i] {
      assert a1[i] == a2[i];
      assert |t1[i]| == |a1[i].items| == |a2[i].items| == |t2[i]|;
      forall k | 0 <= k < |t1[i]| ensures t1[i][k] == t2[i][k] {
        assert a1[i].items[k] == a2[i].items[k];
      }
    }
  }

  /**
   * The preimage determines every field it covers, in its fixed order: two events
   * with the same preimage agree on pubkey, created_at, kind, tags (in order) and content.
   */
  lemma PreimageInjective(e1: Event, e2: Event)
    requires Preimage(e1) == Preimage(e2)
    ensures e1.pubkey == e2.pubkey && e1.createdAt == e2.createdAt && e1.kind == e2.kind
    ensures e1.tags == e2.tags && e1.content == e2.content
  {
    var p1, p2 := Preimage(e1).items, Preimage(e2).items;
    assert p1[4] == p2[4];
    TagsJsonInjective(e1.tags, e2.tags);
  }

  /**
   * A REQ subscription filter: kinds, authors, and optionally the `#p` and `#e` tag
   * values (None when the filter does not name that tag).
   */
  datatype Filter = Filter(kinds: seq<int>, authors: seq<string>, pTags: Option<seq<string>>, eTags: Option<seq<string>>)

  predicate TagFilterHolds(values: Option<seq<string>>, tags: seq<Tag>, name: string)
  {
    values.Some? ==> exists v :: v in values.value && HasTag(tags, name, v)
  }

  /** A tag condition naming a single value holds exactly when some tag carries that value. */
  lemma TagFilterSingleton(value: string, tags: seq<Tag>, name: string)
    ensures TagFilterHolds(Some([value]), tags, name) <==> HasTag(tags, name, value)
  {
    assert value in [value];
  }

  /** NIP-01: an event matches a filter when it satisfies every condition the filter names. */
  predicate Matches(f: Filter, ev: Event)
  {
    && ev.kind in f.kinds
    && ev.pubkey in f.authors
    && TagFilterHolds(f.pTags, ev.tags, "p")
    && TagFilterHolds(f.eTags, ev.tags, "e")
  }

  /**
   * A filter that asks only for the request kind never matches a NIP-47 response
   * event, so a relay that honours the filter never delivers the wallet's reply.
   */
  lemma RequestKindFilterMissesResponses(f: Filter, ev: Event)
    requires f.kinds == [REQUEST_KIND] && ev.kind == RESPONSE_KIND
    ensures !Matches(f, ev)
  {
  }
}
