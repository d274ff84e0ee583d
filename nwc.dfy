/**
 * The wallet client of lib/nwc.ts, built on a Nostr library: connection-string
 * parsing with the optional `lud16`, the constructor, the signed request event, the
 * reply policy of `executeNWCCommand` and its relay/subscription/timer state machine,
 * and the three commands. The library's NIP-04 encryption, key derivation, hashing,
 * Schnorr signing and JSON text are primitives supplied by the caller.
 */
module NwcHelper {
  import opened Wrappers
  import opened Json
  import opened Nostr
  import opened Nip47

  const MISSING_SECRET := "Invalid NWC Connection string: missing secret"

  datatype Connection = Connection(pubkey: string, relay: string, secret: string, lud16: Option<string>)

  /** The foreign functions the client calls. */
  datatype Primitives = Primitives(
    getPublicKey: string -> Option<string>,                 // public key of the hex secret; None when it throws
    nip04Encrypt: (string, string, string) -> Option<string>,  // (secret, peer, plaintext); None when it throws
    nip04Decrypt: (string, string, string) -> Option<string>,  // (secret, peer, content); None when it throws
    stringify: Json -> string,
    parse: string -> Option<Json>,                          // None when the text is not JSON
    sha256Hex: string -> string,
    schnorrSign: (string, string) -> string)                // (event id, secret) -> signature hex

  /**
   * `parseConnectionString`: the same checks as the hand-built client, plus `lud16`,
   * which is kept only when present and non-empty.
   */
  function ParseConnectionString(url: Url): (r: Result<Connection, string>)
    ensures r.Success? <==>
      url.protocol == SCHEME && PubkeyOf(url) != "" && Present(QueryParam(url, "relay")) && Present(QueryParam(url, "secret"))
    ensures r.Success? ==>
      && r.value.pubkey == PubkeyOf(url)
      && r.value.relay == QueryParam(url, "relay").value
      && r.value.secret == QueryParam(url, "secret").value
    ensures r.Success? ==> (r.value.lud16.Some? <==> Present(QueryParam(url, "lud16")))
    ensures r.Success? && r.value.lud16.Some? ==> r.value.lud16 == QueryParam(url, "lud16")
    ensures url.protocol != SCHEME ==> r == Failure("Invalid protocol")
    ensures url.protocol == SCHEME && r.Failure? ==> r == Failure("Missing required NWC parameters (pubkey, relay, secret)")
  {
    if url.protocol != SCHEME then Failure("Invalid protocol")
    else
      var pubkey := PubkeyOf(url);
      var relay := QueryParam(url, "relay");
      var secret := QueryParam(url, "secret");
      var lud16 := if Present(QueryParam(url, "lud16")) then QueryParam(url, "lud16") else None;
      if pubkey == "" || !Present(relay) || !Present(secret) then
        Failure("Missing required NWC parameters (pubkey, relay, secret)")
      else Success(Connection(pubkey, relay.value, secret.value, lud16))
  }

  /** The constructed helper: its connection and its own public key. */
  datatype Helper = Helper(connection: Connection, pubKey: string)

  /**
   * The constructor: parse, check the secret, derive the public key. The secret
   * check can never fail, because parsing already rejects an empty secret.
   */
  function NewHelper(prims: Primitives, url: Url): (r: Result<Helper, string>)
    ensures r.Success? <==>
      ParseConnectionString(url).Success? && prims.getPublicKey(ParseConnectionString(url).value.secret).Some?
    ensures r.Success? ==> r.value.connection == ParseConnectionString(url).value
    ensures r.Success? ==> r.value.pubKey == prims.getPublicKey(r.value.connection.secret).value
    ensures r.Failure? ==> r.error != MISSING_SECRET
  {
    match ParseConnectionString(url)
    case Failure(e) => Failure(e)
    case Success(c) =>
      if c.secret == "" then Failure(MISSING_SECRET)
      else
        match prims.getPublicKey(c.secret)
        case None => Failure("Invalid secret key")  // stands for the error the key library throws
        case Some(pk) => Success(Helper(c, pk))
  }

  /**
   * `encryptAndSign`: the template (kind 23194, one `p` tag naming the wallet, the
   * NIP-04 ciphertext) completed as `finalizeEvent` does: own public key, id hashed
   * from the final fields, Schnorr signature over the id. None when encryption throws.
   */
  function EncryptAndSign(prims: Primitives, helper: Helper, payload: Json, nowMs: nat): (r: Option<Event>)
    ensures r.Some? <==>
      prims.nip04Encrypt(helper.connection.secret, helper.connection.pubkey, prims.stringify(payload)).Some?
    ensures r.Some? ==> r.value.kind == REQUEST_KIND && r.value.tags == [["p", helper.connection.pubkey]]
    ensures r.Some? ==> r.value.createdAt == nowMs / 1000 && r.value.pubkey == helper.pubKey
    ensures r.Some? ==>
      r.value.content == prims.nip04Encrypt(helper.connection.secret, helper.connection.pubkey, prims.stringify(payload)).value
    ensures r.Some? ==> r.value.id == EventId(prims.sha256Hex, prims.stringify, r.value)
    ensures r.Some? ==> r.value.sig == prims.schnorrSign(r.value.id, helper.connection.secret)
  {
    match prims.nip04Encrypt(helper.connection.secret, helper.connection.pubkey, prims.stringify(payload))
    case None => None
    case Some(content) =>
      var unsigned := Event("", helper.pubKey, nowMs / 1000, REQUEST_KIND, [["p", helper.connection.pubkey]], content, "");
      var id := EventId(prims.sha256Hex, prims.stringify, unsigned);
      EventIdIgnoresIdAndSig(prims.sha256Hex, prims.stringify, unsigned, id, prims.schnorrSign(id, helper.connection.secret));
      Some(unsigned.(id := id, sig := prims.schnorrSign(id, helper.connection.secret)))
  }

  /** The subscription: kind 23194, authored by the wallet, tagged `p` = own key and `e` = request id. */
  function SubscriptionFilter(helper: Helper, requestId: string): (f: Filter)
    ensures forall ev :: Matches(f, ev) <==>
      && ev.kind == REQUEST_KIND && ev.pubkey == helper.connection.pubkey
      && HasTag(ev.tags, "p", helper.pubKey) && HasTag(ev.tags, "e", requestId)
  {
    SingletonTagFilters(helper, requestId);
    Filter([REQUEST_KIND], [helper.connection.pubkey], Some([helper.pubKey]), Some([requestId]))
  }

  /** Both tag conditions of the subscription name one value each: own key for `p`, the request id for `e`. */
  lemma SingletonTagFilters(helper: Helper, requestId: string)
    ensures forall ev: Event ::
      && (TagFilterHolds(Some([helper.pubKey]), ev.tags, "p") <==> HasTag(ev.tags, "p", helper.pubKey))
      && (TagFilterHolds(Some([requestId]), ev.tags, "e") <==> HasTag(ev.tags, "e", requestId))
  {
    forall ev: Event
      ensures && (TagFilterHolds(Some([helper.pubKey]), ev.tags, "p") <==> HasTag(ev.tags, "p", helper.pubKey))
              && (TagFilterHolds(Some([requestId]), ev.tags, "e") <==> HasTag(ev.tags, "e", requestId))
    {
      TagFilterSingleton(helper.pubKey, ev.tags, "p");
      TagFilterSingleton(requestId, ev.tags, "e");
    }
  }

  /** A NIP-47 wallet's reply (kind 23195) never passes the filter, as in the hand-built client. */
  lemma SubscriptionFilterMissesWalletReplies(helper: Helper, requestId: string, reply: Event)
    requires reply.kind == RESPONSE_KIND
    ensures !Matches(SubscriptionFilter(helper, requestId), reply)
  {
    RequestKindFilterMissesResponses(SubscriptionFilter(helper, requestId), reply);
  }

  /** The subscription with the response kind NIP-47 assigns to wallet replies. */
  function ResponseFilter(helper: Helper, requestId: string): (f: Filter)
    ensures forall ev :: Matches(f, ev) <==>
      && ev.kind == RESPONSE_KIND && ev.pubkey == helper.connection.pubkey
      && HasTag(ev.tags, "p", helper.pubKey) && HasTag(ev.tags, "e", requestId)
  {
    SingletonTagFilters(helper, requestId);
    Filter([RESPONSE_KIND], [helper.connection.pubkey], Some([helper.pubKey]), Some([requestId]))
  }

  /**
   * The reply policy: reading `error` of `null` throws and rejects; a truthy `error`
   * resolves to null for `lookup_invoice` and rejects with its message for every
   * other command; otherwise the `result` member resolves.
   */
  function ReplyVerdict(command: string, reply: Json): (r: Settlement)
    ensures reply == JNull ==> r == Rejected(TypeErrorThrown)
    ensures reply != JNull && Truthy(Prop(Some(reply), "error").value) ==>
      if command == LOOKUP_INVOICE then r == Resolved(Some(JNull))
      else r == Rejected(PeerError(MessageOf(Prop(Some(reply), "error").value)))
    ensures reply != JNull && !Truthy(Prop(Some(reply), "error").value) ==>
      r == Resolved(Prop(Some(reply), "result").value)
  {
    match Prop(Some(reply), "error")
    case TypeError => Rejected(TypeErrorThrown)
    case Value(err) =>
      if Truthy(err) then
        if command == LOOKUP_INVOICE then Resolved(Some(JNull)) else Rejected(PeerError(MessageOf(err)))
      else Resolved(Prop(Some(reply), "result").value)
  }

  /**
   * The `onevent` handler's decision: every delivered event settles the response,
   * and a content that does not decrypt or parse rejects it (the hand-built client
   * ignores such a frame instead).
   */
  function EventVerdict(prims: Primitives, helper: Helper, command: string, ev: Event): (r: Settlement)
    ensures prims.nip04Decrypt(helper.connection.secret, helper.connection.pubkey, ev.content).None? ==>
      r == Rejected(DecryptFailed)
    ensures r.Resolved? ==>
      var text := prims.nip04Decrypt(helper.connection.secret, helper.connection.pubkey, ev.content);
      text.Some? && prims.parse(text.value).Some?
    ensures var text := prims.nip04Decrypt(helper.connection.secret, helper.connection.pubkey, ev.content);
      text.Some? ==>
        r == if prims.parse(text.value).Some? then ReplyVerdict(command, prims.parse(text.value).value) else Rejected(ParseFailed)
  {
    match prims.nip04Decrypt(helper.connection.secret, helper.connection.pubkey, ev.content)
    case None => Rejected(DecryptFailed)
    case Some(text) =>
      match prims.parse(text)
      case None => Rejected(ParseFailed)
      case Some(reply) => ReplyVerdict(command, reply)
  }

  /**
   * `lookupInvoice`: `res && !!res.settled_at`. Rejections propagate; the value is
   * true exactly when the response is truthy and has a truthy `settled_at`.
   */
  function LookupResult(s: Settlement): (r: Result<bool, Reason>)
    ensures s.Rejected? ==> r == Failure(s.reason)
    ensures r == Success(true) <==>
      s.Resolved? && Truthy(s.value) && Prop(s.value, "settled_at").Value? && Truthy(Prop(s.value, "settled_at").value)
    ensures s.Resolved? ==> r.Success?
  {
    match s
    case Rejected(reason) => Failure(reason)
    case Resolved(v) =>
      if !Truthy(v) then Success(false)
      else
        TruthyReadable(v, "settled_at");
        Success(Truthy(Prop(v, "settled_at").value))
  }

  /** A wallet's error reply to a lookup makes `lookupInvoice` report false through the null response. */
  lemma LookupErrorReplyIsUnsettled(m: string)
    ensures var reply := JObj([("error", JObj([("message", JStr(m))]))]);
      ReplyVerdict(LOOKUP_INVOICE, reply) == Resolved(Some(JNull)) && LookupResult(Resolved(Some(JNull))) == Success(false)
  {
  }

  datatype PublishState = Pending | Acked | Refused

  /** An operation the command issues on the relay connection, in order. */
  datatype RelayOp = Subscribe(filter: Filter) | Publish(event: Event)

  /**
   * One `executeNWCCommand` call after `Relay.connect`: the subscription, the response
   * promise settled from `onevent` or the timer, the awaited publish, and the relay
   * closed in `finally`. `response` is the inner promise, `outcome` the call's own.
   */
  class CommandRun {
    const prims: Primitives
    const helper: Helper
    const command: string
    const connected: bool
    const request: Option<Event>
    var ops: seq<RelayOp>
    var publish: PublishState
    var response: Option<Settlement>
    var outcome: Option<Settlement>
    var subscriptionOpen: bool
    var delivered: bool
    var timerArmed: bool
    var relayCloses: nat
    var subscriptionCloses: nat

    ghost predicate Valid()
      reads this
    {
      && (ops != [] <==> connected && request.Some?)
      && (ops != [] ==> ops == [Subscribe(SubscriptionFilter(helper, request.value.id)), Publish(request.value)])
      && (!connected ==> outcome == Some(Rejected(ConnectFailed)) && relayCloses == 0)
      && (connected && request.None? ==> outcome == Some(Rejected(EncryptFailed)))
      && (connected ==> relayCloses == (if outcome.Some? then 1 else 0))
      && (ops != [] ==>
            && (subscriptionOpen <==> response.None?)
            && (!timerArmed ==> response.Some?)
            && (delivered ==> response.Some?)
            && subscriptionCloses == (if delivered then 1 else 0) + (if timerArmed then 0 else 1)
            && (outcome.None? ==> publish == Pending || (publish == Acked && response.None?))
            && (outcome.Some? ==>
                  (publish == Refused && outcome == Some(Rejected(PublishFailed))) || (publish == Acked && outcome == response)))
    }

    /**
     * The call up to `await relay.publish`: build the request, subscribe, arm the
     * timer, publish. A failed connection rejects before the `try`, so nothing is
     * closed; a failed encryption rejects inside it, and `finally` closes the relay.
     */
    constructor (prims: Primitives, helper: Helper, command: string, params: Json, nowMs: nat, connected: bool)
      ensures Valid()
      ensures this.prims == prims && this.helper == helper && this.command == command && this.connected == connected
      ensures request == (if connected then EncryptAndSign(prims, helper, Payload(command, params), nowMs) else None)
      ensures !connected ==> outcome == Some(Rejected(ConnectFailed)) && relayCloses == 0 && ops == []
      ensures connected && request.None? ==> outcome == Some(Rejected(EncryptFailed)) && relayCloses == 1 && ops == []
      ensures ops == [] ==> !subscriptionOpen && !timerArmed && !delivered && subscriptionCloses == 0 && response.None?
      ensures connected && request.Some? ==>
        && ops == [Subscribe(SubscriptionFilter(helper, request.value.id)), Publish(request.value)]
        && outcome.None? && response.None? && publish == Pending && relayCloses == 0
        && subscriptionOpen && timerArmed && !delivered && subscriptionCloses == 0
    {
      this.prims := prims;
      this.helper := helper;
      this.command := command;
      this.connected := connected;
      var req := if connected then EncryptAndSign(prims, helper, Payload(command, params), nowMs) else None;
      request := req;
      publish := Pending;
      response := None;
      delivered := false;
      subscriptionCloses := 0;
      if !connected {
        ops := [];
        outcome := Some(Rejected(ConnectFailed));
        relayCloses := 0;
        subscriptionOpen := false;
        timerArmed := false;
      } else if req.None? {
        ops := [];
        outcome := Some(Rejected(EncryptFailed));
        relayCloses := 1;
        subscriptionOpen := false;
        timerArmed := false;
      } else {
        ops := [Subscribe(SubscriptionFilter(helper, req.value.id)), Publish(req.value)];
        outcome := None;
        relayCloses := 0;
        subscriptionOpen := true;
        timerArmed := true;
      }
    }

    /** `await relay.publish(event)` completes: a refusal rejects the call; an acknowledgement hands over to the response. */
    method OnPublished(ok: bool)
      requires Valid()
      modifies this
      ensures Valid()
      ensures ops == old(ops) && response == old(response)
      ensures old(outcome).Some? ==> outcome == old(outcome) && relayCloses == old(relayCloses)
      ensures ops != [] && old(publish) == Pending && !ok ==>
        publish == Refused && outcome == Some(Rejected(PublishFailed)) && relayCloses == 1
      ensures ops != [] && old(publish) == Pending && ok ==>
        publish == Acked && outcome == response && relayCloses == (if response.Some? then 1 else 0)
      ensures ops == [] || old(publish) != Pending ==>
        publish == old(publish) && outcome == old(outcome) && relayCloses == old(relayCloses)
      ensures && subscriptionOpen == old(subscriptionOpen) && delivered == old(delivered)
              && timerArmed == old(timerArmed) && subscriptionCloses == old(subscriptionCloses)
    {
      if ops != [] && publish == Pending {
        if ok {
          publish := Acked;
          if response.Some? {
            outcome := response;
            relayCloses := relayCloses + 1;
          }
        } else {
          publish := Refused;
          outcome := Some(Rejected(PublishFailed));
          relayCloses := relayCloses + 1;
        }
      }
    }

    /** `onevent`: the first delivered event settles the response and closes the subscription. */
    method OnEvent(ev: Event)
      requires Valid()
      modifies this
      ensures Valid()
      ensures ops == old(ops) && publish == old(publish)
      ensures old(outcome).Some? ==> outcome == old(outcome) && relayCloses == old(relayCloses)
      ensures old(response).Some? ==> response == old(response)
      ensures ops != [] && old(subscriptionOpen) && old(relayCloses) == 0 ==>
        && response == Some(EventVerdict(prims, helper, command, ev))
        && !subscriptionOpen && subscriptionCloses == old(subscriptionCloses) + 1
        && (publish == Acked ==> outcome == response && relayCloses == 1)
        && (publish != Acked ==> outcome == old(outcome) && relayCloses == old(relayCloses))
        && delivered && timerArmed == old(timerArmed)
    ensures !(ops != [] && old(subscriptionOpen) && old(relayCloses) == 0) ==>
      && response == old(response) && outcome == old(outcome) && relayCloses == old(relayCloses)
      && subscriptionOpen == old(subscriptionOpen) && delivered == old(delivered)
      && timerArmed == old(timerArmed) && subscriptionCloses == old(subscriptionCloses)
    {
      if ops != [] && subscriptionOpen && relayCloses == 0 {
        response := Some(EventVerdict(prims, helper, command, ev));
        delivered := true;
        subscriptionOpen := false;
        subscriptionCloses := subscriptionCloses + 1;
        if publish == Acked {
          outcome := response;
          relayCloses := relayCloses + 1;
        }
      }
    }

    /**
     * The timer, which is never cleared: it closes the subscription again and
     * rejects with "NWC Timeout", which only takes effect if nothing settled first.
     */
    method OnTimeout()
      requires Valid()
      modifies this
      ensures Valid()
      ensures ops == old(ops) && publish == old(publish)
      ensures old(outcome).Some? ==> outcome == old(outcome) && relayCloses == old(relayCloses)
      ensures old(response).Some? ==> response == old(response)
      ensures delivered == old(delivered)
      ensures ops != [] && old(timerArmed) ==>
        && !timerArmed && !subscriptionOpen && subscriptionCloses == old(subscriptionCloses) + 1
        && (old(response).None? ==> response == Some(Rejected(Timeout)))
        && (publish == Acked && old(outcome).None? ==> outcome == response && relayCloses == 1)
        && (publish != Acked ==> outcome == old(outcome) && relayCloses == old(relayCloses))
      ensures ops != [] && old(timerArmed) && delivered ==> subscriptionCloses == 2
      ensures !(ops != [] && old(timerArmed)) ==>
        && timerArmed == old(timerArmed) && subscriptionOpen == old(subscriptionOpen)
        && subscriptionCloses == old(subscriptionCloses) && response == old(response)
        && outcome == old(outcome) && relayCloses == old(relayCloses)
    {
      if ops != [] && timerArmed {
        timerArmed := false;
        subscriptionOpen := false;
        subscriptionCloses := subscriptionCloses + 1;
        if response.None? {
          response := Some(Rejected(Timeout));
        }
        if publish == Acked && outcome.None? {
          outcome := response;
          relayCloses := relayCloses + 1;
        }
      }
    }
  }
}
