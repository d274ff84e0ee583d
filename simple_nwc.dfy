/**
 * The hand-built wallet client of lib/simple-nwc.ts: connection-string parsing, the
 * NIP-04 content envelope, the signed request event, the reply handler and the
 * socket state machine of one `execute` call, and the three commands built on it.
 * Cryptography, hashing, JSON text and `atob` are primitives supplied by the caller.
 */
module SimpleNwc {
  import opened Wrappers
  import opened Json
  import opened Text
  import opened Base64
  import opened Nostr
  import opened Nip47

  /** The separator between ciphertext and IV in an encrypted content. */
  const IV_MARKER := "?iv="
  /** Length of the random initialisation vector. */
  const IV_LENGTH := 16

  datatype Connection = Connection(pubkey: string, relay: string, secret: string)

  /** The foreign functions the client calls. */
  datatype Primitives = Primitives(
    publicKeyHex: string -> Option<string>,            // x-only public key of a hex secret; None when it throws
    sharedX: (string, string) -> Option<seq<byte>>,    // x coordinate of the ECDH point for (secret, compressed peer key)
    cbcEncrypt: (seq<byte>, seq<byte>, seq<byte>) -> seq<byte>,          // AES-CBC (key, iv, plaintext)
    cbcDecrypt: (seq<byte>, seq<byte>, seq<byte>) -> Option<seq<byte>>,  // AES-CBC (key, iv, ciphertext); None on bad padding
    utf8Encode: string -> seq<byte>,
    utf8Decode: seq<byte> -> string,
    atob: string -> Option<string>,                    // None when the text is not base64
    stringify: Json -> string,
    parse: string -> Option<Json>,                     // None when the text is not JSON
    sha256Hex: string -> string,
    ecdsaSign: (string, string) -> string)             // (event id, secret) -> compact signature hex

  /**
   * `parseConnectionString`: the scheme must be `nostr+walletconnect:`, and the
   * public key, `relay` and `secret` must all be non-empty; the result holds exactly those.
   */
  function ParseConnectionString(url: Url): (r: Result<Connection, string>)
    ensures r.Success? <==>
      url.protocol == SCHEME && PubkeyOf(url) != "" && Present(QueryParam(url, "relay")) && Present(QueryParam(url, "secret"))
    ensures r.Success? ==>
      r.value == Connection(PubkeyOf(url), QueryParam(url, "relay").value, QueryParam(url, "secret").value)
    ensures url.protocol != SCHEME ==> r == Failure("Invalid protocol")
    ensures url.protocol == SCHEME && r.Failure? ==> r == Failure("Missing required NWC parameters")
  {
    if url.protocol != SCHEME then Failure("Invalid protocol")
    else
      var pubkey := PubkeyOf(url);
      var relay := QueryParam(url, "relay");
      var secret := QueryParam(url, "secret");
      if pubkey == "" || !Present(relay) || !Present(secret) then Failure("Missing required NWC parameters")
      else Success(Connection(pubkey, relay.value, secret.value))
  }

  /** The URL of `nostr+walletconnect://<pubkey>?relay=...&secret=...`. */
  function ConnectionUrl(c: Connection): Url
  {
    Url(SCHEME, c.pubkey, "", map["relay" := c.relay, "secret" := c.secret])
  }

  /** Parsing the connection string of a connection gives that connection back. */
  lemma ParseConnectionUrl(c: Connection)
    requires c.pubkey != "" && c.relay != "" && c.secret != ""
    ensures ParseConnectionString(ConnectionUrl(c)) == Success(c)
  {
  }

  /** The constructed client: its connection and its own x-only public key. */
  datatype Client = Client(connection: Connection, pubKey: string)

  /** The constructor: parse, then derive the public key from the secret (which throws for a bad key). */
  function NewClient(prims: Primitives, url: Url): (r: Result<Client, string>)
    ensures r.Success? <==>
      ParseConnectionString(url).Success? && prims.publicKeyHex(ParseConnectionString(url).value.secret).Some?
    ensures r.Success? ==> r.value.connection == ParseConnectionString(url).value
    ensures r.Success? ==> r.value.pubKey == prims.publicKeyHex(r.value.connection.secret).value
  {
    match ParseConnectionString(url)
    case Failure(e) => Failure(e)
    case Success(c) =>
      match prims.publicKeyHex(c.secret)
      case None => Failure("Invalid secret key")  // stands for the error the secp256k1 library throws
      case Some(pk) => Success(Client(c, pk))
  }

  /** The socket URL: the first `ws://` becomes `wss://`. */
  function SecureRelayUrl(relay: string): (r: string)
    ensures "ws://" <= relay ==> r == "wss://" + relay[5..]
    ensures (forall k :: !OccursAt(relay, "ws://", k)) ==> r == relay
  {
    ReplaceFirst(relay, "ws://", "wss://")
  }

  /**
   * A `wss://` relay keeps its scheme; it is unchanged unless `ws://` occurs later
   * in it (as in `wss://news://x`), where that occurrence is rewritten.
   */
  lemma {:induction false} SecureRelayUrlKeepsWss(relay: string)
    requires "wss://" <= relay
    ensures "wss://" <= SecureRelayUrl(relay)
    ensures (forall k :: !OccursAt(relay, "ws://", k)) ==> SecureRelayUrl(relay) == relay
  {
    match IndexOf(relay, "ws://", 0)
    case None =>
    case Some(k) =>
      assert relay[..6] == "wss://";
      forall j | 0 <= j < 6 ensures !OccursAt(relay, "ws://", j) {
        if j + 5 <= |relay| {
          if j == 0 {
            assert relay[j..j + 5][2] == relay[..6][2];
          } else {
            assert relay[j..j + 5][0] == relay[..6][j];
          }
        }
      }
      assert k >= 6;
      var r := relay[..k] + "wss://" + relay[k + 5..];
      assert r[..6] == relay[..k][..6];
  }

  /** The key both directions of the envelope use: ECDH with the peer key taken as even (`02` prefix). */
  function SharedKey(prims: Primitives, client: Client): Option<seq<byte>>
  {
    prims.sharedX(client.connection.secret, "02" + client.connection.pubkey)
  }

  /** `encryptState`: base64 ciphertext and base64 IV, or None when key agreement throws. */
  function EncryptState(prims: Primitives, client: Client, text: string, iv: seq<byte>): (r: Option<(string, string)>)
    ensures r.Some? <==> SharedKey(prims, client).Some?
    ensures r.Some? ==> r.value.1 == Encode(iv) && IV_MARKER[0] !in r.value.0 && IV_MARKER[0] !in r.value.1
  {
    match SharedKey(prims, client)
    case None => None
    case Some(key) =>
      var ct := prims.cbcEncrypt(key, iv, prims.utf8Encode(text));
      EncodeHasNoQuestionMark(ct);
      EncodeHasNoQuestionMark(iv);
      Some((Encode(ct), Encode(iv)))
  }

  /**
   * The content field of a request: `ciphertext + "?iv=" + iv`. When neither part
   * contains `?` (as base64 text never does), splitting on the marker gives both parts back.
   */
  function WireContent(ciphertext: string, iv: string): (r: string)
    ensures IV_MARKER[0] !in ciphertext && IV_MARKER[0] !in iv ==>
      SplitFirstTwo(r, IV_MARKER) == (ciphertext, Some(iv))
  {
    if IV_MARKER[0] !in ciphertext && IV_MARKER[0] !in iv then
      SplitJoin(ciphertext, iv, IV_MARKER);
      ciphertext + IV_MARKER + iv
    else
      ciphertext + IV_MARKER + iv
  }

  datatype EnvelopeError = MissingIv | BadBase64 | BadKey | BadCipher

  /**
   * `decryptState`: split on `?iv=`; an absent marker or an empty IV part fails with
   * "Missing IV"; then both parts are base64-decoded and the ciphertext is decrypted.
   */
  function DecryptState(prims: Primitives, client: Client, wire: string): (r: Result<string, EnvelopeError>)
    ensures r == Failure(MissingIv) <==> !Present(SplitFirstTwo(wire, IV_MARKER).1)
    ensures r.Success? ==> SharedKey(prims, client).Some?
    ensures var parts := SplitFirstTwo(wire, IV_MARKER);
      r.Success? <==>
        && Present(parts.1)
        && DecodeBytes(prims.atob, parts.1.value).Some? && DecodeBytes(prims.atob, parts.0).Some?
        && SharedKey(prims, client).Some?
        && prims.cbcDecrypt(SharedKey(prims, client).value, DecodeBytes(prims.atob, parts.1.value).value,
                            DecodeBytes(prims.atob, parts.0).value).Some?
    ensures var parts := SplitFirstTwo(wire, IV_MARKER);
      r.Success? ==>
        r.value == prims.utf8Decode(prims.cbcDecrypt(SharedKey(prims, client).value, DecodeBytes(prims.atob, parts.1.value).value,
                                                     DecodeBytes(prims.atob, parts.0).value).value)
  {
    var parts := SplitFirstTwo(wire, IV_MARKER);
    if !Present(parts.1) then Failure(MissingIv)
    else
      match DecodeBytes(prims.atob, parts.1.value)
      case None => Failure(BadBase64)
      case Some(iv) =>
        match DecodeBytes(prims.atob, parts.0)
        case None => Failure(BadBase64)
        case Some(ciphertext) =>
          match SharedKey(prims, client)
          case None => Failure(BadKey)
          case Some(key) =>
            match prims.cbcDecrypt(key, iv, ciphertext)
            case None => Failure(BadCipher)
            case Some(plain) => Success(prims.utf8Decode(plain))
  }

  /** A content without the `?iv=` marker is rejected with "Missing IV". */
  lemma NoMarkerMissingIv(prims: Primitives, client: Client, wire: string)
    requires forall k :: !OccursAt(wire, IV_MARKER, k)
    ensures DecryptState(prims, client, wire) == Failure(MissingIv)
  {
  }

  /**
   * The envelope round trip: given that `atob` inverts `btoa`, AES-CBC decryption
   * inverts encryption and UTF-8 decoding inverts encoding, decrypting the content
   * of a request gives back its plaintext.
   */
  lemma EnvelopeRoundTrip(prims: Primitives, client: Client, text: string, iv: seq<byte>)
    requires forall b :: prims.atob(Encode(b)) == Some(BinaryString(b))
    requires forall k, v, p :: prims.cbcDecrypt(k, v, prims.cbcEncrypt(k, v, p)) == Some(p)
    requires forall t :: prims.utf8Decode(prims.utf8Encode(t)) == t
    requires |iv| == IV_LENGTH
    requires EncryptState(prims, client, text, iv).Some?
    ensures var e := EncryptState(prims, client, text, iv).value;
      DecryptState(prims, client, WireContent(e.0, e.1)) == Success(text)
  {
    var e := EncryptState(prims, client, text, iv).value;
    var key := SharedKey(prims, client).value;
    var ct := prims.cbcEncrypt(key, iv, prims.utf8Encode(text));
    assert SplitFirstTwo(WireContent(e.0, e.1), IV_MARKER) == (e.0, Some(e.1));
    assert e.1 != "" by { assert |e.1| == 4 * ((|iv| + 2) / 3); }
    assert DecodeBytes(prims.atob, e.1) == Some(iv);
    assert DecodeBytes(prims.atob, e.0) == Some(ct);
  }

  /** `created_at`: `Math.floor(Date.now() / 1000)`. */
  function CreatedAt(nowMs: nat): int
  {
    nowMs / 1000
  }

  /**
   * The signed request event: kind 23194, one `p` tag naming the wallet, the
   * envelope as content, an id hashed from the final fields and a signature over that id.
   */
  function RequestEvent(prims: Primitives, client: Client, createdAt: int, content: string): (ev: Event)
    ensures ev.kind == REQUEST_KIND && ev.tags == [["p", client.connection.pubkey]]
    ensures ev.content == content && ev.createdAt == createdAt && ev.pubkey == client.pubKey
    ensures ev.id == EventId(prims.sha256Hex, prims.stringify, ev)
    ensures ev.sig == prims.ecdsaSign(ev.id, client.connection.secret)
  {
    var unsigned := Event("", client.pubKey, createdAt, REQUEST_KIND, [["p", client.connection.pubkey]], content, "");
    var id := EventId(prims.sha256Hex, prims.stringify, unsigned);
    EventIdIgnoresIdAndSig(prims.sha256Hex, prims.stringify, unsigned, id, prims.ecdsaSign(id, client.connection.secret));
    unsigned.(id := id, sig := prims.ecdsaSign(id, client.connection.secret))
  }

  /**
   * What the promise executor of `execute` builds before installing its handlers: the
   * payload, its envelope and the signed event; None when encryption throws, in
   * which case no handler is installed.
   */
  function BuildRequest(prims: Primitives, client: Client, command: string, params: Json, nowMs: nat, iv: seq<byte>): (r: Option<Event>)
    ensures r.Some? <==> SharedKey(prims, client).Some?
    ensures r.Some? ==> r.value.kind == REQUEST_KIND && r.value.createdAt == CreatedAt(nowMs)
    ensures r.Some? ==> r.value.id == EventId(prims.sha256Hex, prims.stringify, r.value)
    ensures r.Some? ==>
      var e := EncryptState(prims, client, prims.stringify(Payload(command, params)), iv).value;
      r.value == RequestEvent(prims, client, CreatedAt(nowMs), WireContent(e.0, e.1))
  {
    match EncryptState(prims, client, prims.stringify(Payload(command, params)), iv)
    case None => None
    case Some(e) => Some(RequestEvent(prims, client, CreatedAt(nowMs), WireContent(e.0, e.1)))
  }

  /** The REQ filter: replies of kind 23194 from the wallet that reference the request. */
  function ReplyFilter(client: Client, requestId: string): (f: Filter)
    ensures forall ev :: Matches(f, ev) <==>
      ev.kind == REQUEST_KIND && ev.pubkey == client.connection.pubkey && HasTag(ev.tags, "e", requestId)
  {
    assert forall ev: Event :: TagFilterHolds(Some([requestId]), ev.tags, "e") <==> HasTag(ev.tags, "e", requestId) by {
      forall ev: Event ensures TagFilterHolds(Some([requestId]), ev.tags, "e") <==> HasTag(ev.tags, "e", requestId) {
        TagFilterSingleton(requestId, ev.tags, "e");
      }
    }
    Filter([REQUEST_KIND], [client.connection.pubkey], None, Some([requestId]))
  }

  /**
   * The filter asks for kind 23194, while a NIP-47 wallet replies with kind 23195: a
   * relay that honours the filter never forwards such a reply.
   */
  lemma ReplyFilterMissesWalletReplies(client: Client, requestId: string, reply: Event)
    requires reply.kind == RESPONSE_KIND
    ensures !Matches(ReplyFilter(client, requestId), reply)
  {
    RequestKindFilterMissesResponses(ReplyFilter(client, requestId), reply);
  }

  /** The filter with the response kind NIP-47 assigns to wallet replies. */
  function ResponseFilter(client: Client, requestId: string): (f: Filter)
    ensures forall ev :: Matches(f, ev) <==>
      ev.kind == RESPONSE_KIND && ev.pubkey == client.connection.pubkey && HasTag(ev.tags, "e", requestId)
  {
    assert forall ev: Event :: TagFilterHolds(Some([requestId]), ev.tags, "e") <==> HasTag(ev.tags, "e", requestId) by {
      forall ev: Event ensures TagFilterHolds(Some([requestId]), ev.tags, "e") <==> HasTag(ev.tags, "e", requestId) {
        TagFilterSingleton(requestId, ev.tags, "e");
      }
    }
    Filter([RESPONSE_KIND], [client.connection.pubkey], None, Some([requestId]))
  }

  /**
   * What the handler does with a decrypted, parsed reply: reading `error` of `null`
   * throws inside the `try` and is ignored; a truthy `error` rejects, except for
   * `lookup_invoice`, which falls through; otherwise the `result` member resolves.
   */
  function ReplyVerdict(command: string, reply: Json): (r: Option<Settlement>)
    ensures r.None? <==> reply == JNull
    ensures command == LOOKUP_INVOICE ==> r.None? || r.value.Resolved?
    ensures r.Some? && r.value.Rejected? <==>
      reply != JNull && command != LOOKUP_INVOICE && Truthy(Prop(Some(reply), "error").value)
    ensures r.Some? && r.value.Rejected? ==> r.value.reason == PeerError(MessageOf(Prop(Some(reply), "error").value))
    ensures r.Some? && r.value.Resolved? ==> r.value.value == Prop(Some(reply), "result").value
  {
    match Prop(Some(reply), "error")
    case TypeError => None
    case Value(err) =>
      if Truthy(err) && command != LOOKUP_INVOICE then Some(Rejected(PeerError(MessageOf(err))))
      else Some(Resolved(Prop(Some(reply), "result").value))
  }

  /** A frame from the relay, after `JSON.parse`: its first element and, for events, the event in third place. */
  datatype RelayFrame =
    | Unparseable                                    // JSON.parse throws; the handler stops
    | Frame(head: Option<string>, payload: Option<Event>)

  /**
   * The `onmessage` handler's decision on one frame: only an EVENT frame whose event
   * carries `["e", <request id>]`, decrypts and parses can settle the request; every
   * other frame is ignored (None).
   */
  function FrameVerdict(prims: Primitives, client: Client, command: string, requestId: string, frame: RelayFrame): (r: Option<Settlement>)
    ensures r.Some? ==>
      frame.Frame? && frame.head == Some("EVENT") && frame.payload.Some? && HasTag(frame.payload.value.tags, "e", requestId)
    ensures r.Some? ==> DecryptState(prims, client, frame.payload.value.content).Success?
    ensures command == LOOKUP_INVOICE ==> r.None? || r.value.Resolved?
    ensures && frame.Frame? && frame.head == Some("EVENT") && frame.payload.Some?
            && HasTag(frame.payload.value.tags, "e", requestId)
            && DecryptState(prims, client, frame.payload.value.content).Success?
            ==>
        var parsed := prims.parse(DecryptState(prims, client, frame.payload.value.content).value);
        r == if parsed.Some? then ReplyVerdict(command, parsed.value) else None
  {
    if !frame.Frame? || frame.head != Some("EVENT") || frame.payload.None? then None
    else
      var ev := frame.payload.value;
      if !HasTag(ev.tags, "e", requestId) then None
      else
        match DecryptState(prims, client, ev.content)
        case Failure(_) => None
        case Success(text) =>
          match prims.parse(text)
          case None => None
          case Some(reply) => ReplyVerdict(command, reply)
  }

  /**
   * A request's content, once the wallet has decrypted it, is the JSON text of the
   * `{method, params}` payload, under the same assumptions on the primitives as the envelope round trip.
   */
  lemma RequestDecrypts(prims: Primitives, client: Client, command: string, params: Json, nowMs: nat, iv: seq<byte>)
    requires forall b :: prims.atob(Encode(b)) == Some(BinaryString(b))
    requires forall k, v, p :: prims.cbcDecrypt(k, v, prims.cbcEncrypt(k, v, p)) == Some(p)
    requires forall t :: prims.utf8Decode(prims.utf8Encode(t)) == t
    requires |iv| == IV_LENGTH
    requires SharedKey(prims, client).Some?
    ensures var ev := BuildRequest(prims, client, command, params, nowMs, iv).value;
      DecryptState(prims, client, ev.content) == Success(prims.stringify(Payload(command, params)))
  {
    EnvelopeRoundTrip(prims, client, prims.stringify(Payload(command, params)), iv);
  }

  /**
   * A reply the wallet encrypts for this client, tags with the request id and sends
   * in an EVENT frame settles the call exactly as its JSON body says, given the
   * envelope assumptions and that `JSON.parse` inverts `JSON.stringify`.
   */
  lemma ReplyFrameSettles(prims: Primitives, client: Client, command: string, requestId: string,
                          ev: Event, reply: Json, iv: seq<byte>)
    requires forall b :: prims.atob(Encode(b)) == Some(BinaryString(b))
    requires forall k, v, p :: prims.cbcDecrypt(k, v, prims.cbcEncrypt(k, v, p)) == Some(p)
    requires forall t :: prims.utf8Decode(prims.utf8Encode(t)) == t
    requires prims.parse(prims.stringify(reply)) == Some(reply)
    requires |iv| == IV_LENGTH
    requires EncryptState(prims, client, prims.stringify(reply), iv).Some?
    requires HasTag(ev.tags, "e", requestId)
    requires var e := EncryptState(prims, client, prims.stringify(reply), iv).value;
      ev.content == WireContent(e.0, e.1)
    ensures FrameVerdict(prims, client, command, requestId, Frame(Some("EVENT"), Some(ev))) == ReplyVerdict(command, reply)
  {
    EnvelopeRoundTrip(prims, client, prims.stringify(reply), iv);
  }

  /** `lookupInvoice`: true only when the command resolved to a value whose `settled_at` is truthy; every failure is false. */
  function LookupResult(s: Settlement): (settled: bool)
    ensures settled <==> s.Resolved? && Prop(s.value, "settled_at").Value? && Truthy(Prop(s.value, "settled_at").value)
  {
    match s
    case Rejected(_) => false
    case Resolved(v) =>
      match Prop(v, "settled_at")
      case TypeError => false
      case Value(at) => Truthy(at)
  }

  /**
   * A wallet that answers a lookup with `{"error": {"message": m}}` makes
   * `lookupInvoice` report false, not an error: the reply falls through to an
   * undefined result, reading `settled_at` of it throws and the catch returns false.
   */
  lemma LookupErrorReplyIsUnsettled(m: string)
    ensures var reply := JObj([("error", JObj([("message", JStr(m))]))]);
      ReplyVerdict(LOOKUP_INVOICE, reply) == Some(Resolved(None)) && !LookupResult(Resolved(None))
  {
  }

  /** The state of the WebSocket. */
  datatype SocketState = Connecting | Open | Closed

  /** A frame the client writes to the socket. */
  datatype ClientFrame = Req(subId: string, filter: Filter) | Publish(event: Event)

  /**
   * One `execute` call: the socket, the 10-second timer and the promise, driven by
   * the events that can reach it (socket open, message, timer, socket closed by the
   * relay). `outcome` is the promise's settlement. `socketCreated` is whether
   * `new WebSocket(relayUrl)` accepted the URL: when it throws, the async executor's
   * rejection is lost before the timer is set, and the call never settles.
   */
  class Execution {
    const prims: Primitives
    const client: Client
    const command: string
    const relayUrl: string
    const socketCreated: bool
    const request: Option<Event>
    var socket: SocketState
    var timerArmed: bool
    var sent: seq<ClientFrame>
    var outcome: Option<Settlement>

    ghost predicate Valid()
      reads this
    {
      && (outcome.Some? ==> socket == Closed)
      && (socketCreated ==> (timerArmed <==> outcome.None?))
      && (!socketCreated ==> socket == Closed && !timerArmed && outcome.None? && request.None?)
      && (socket == Connecting ==> sent == [])
      && (sent == [] || (
            && request.Some? && |sent| == 2
            && sent[0].Req? && sent[0].filter == ReplyFilter(client, request.value.id)
            && sent[1] == Publish(request.value)))
    }

    /** The promise executor up to installing the handlers: socket, timer, request event. */
    constructor (prims: Primitives, client: Client, command: string, params: Json, nowMs: nat, iv: seq<byte>,
                 socketCreated: bool)
      ensures Valid()
      ensures this.prims == prims && this.client == client && this.command == command
      ensures this.socketCreated == socketCreated
      ensures relayUrl == SecureRelayUrl(client.connection.relay)
      ensures socketCreated ==> request == BuildRequest(prims, client, command, params, nowMs, iv)
      ensures socketCreated ==> socket == Connecting && timerArmed && sent == [] && outcome.None?
      ensures !socketCreated ==> request.None? && socket == Closed && !timerArmed && sent == [] && outcome.None?
    {
      this.prims := prims;
      this.client := client;
      this.command := command;
      relayUrl := SecureRelayUrl(client.connection.relay);
      this.socketCreated := socketCreated;
      request := if socketCreated then BuildRequest(prims, client, command, params, nowMs, iv) else None;
      socket := if socketCreated then Connecting else Closed;
      timerArmed := socketCreated;
      sent := [];
      outcome := None;
    }

    /** `onopen`: subscribe first, then publish the request. */
    method OnOpen(subId: string)
      requires Valid()
      modifies this
      ensures Valid()
      ensures old(socket) == Connecting ==> socket == Open
      ensures old(socket) == Connecting && request.Some? ==>
        sent == [Req(subId, ReplyFilter(client, request.value.id)), Publish(request.value)]
      ensures old(socket) != Connecting || request.None? ==> sent == old(sent)
      ensures old(socket) != Connecting ==> socket == old(socket)
      ensures outcome == old(outcome) && timerArmed == old(timerArmed)
    {
      if socket == Connecting {
        socket := Open;
        if request.Some? {
          sent := [Req(subId, ReplyFilter(client, request.value.id)), Publish(request.value)];
        }
      }
    }

    /** `onmessage`: a frame that settles closes the socket and clears the timer; any other frame changes nothing. */
    method OnMessage(frame: RelayFrame)
      requires Valid()
      modifies this
      ensures Valid()
      ensures sent == old(sent)
      ensures old(outcome).Some? ==> outcome == old(outcome)
      ensures old(socket) == Open && request.Some? ==>
        var v := FrameVerdict(prims, client, command, request.value.id, frame);
        if v.Some? then outcome == v && socket == Closed && !timerArmed
        else outcome == old(outcome) && socket == old(socket) && timerArmed == old(timerArmed)
      ensures old(socket) != Open || request.None? ==>
        outcome == old(outcome) && socket == old(socket) && timerArmed == old(timerArmed)
    {
      if socket == Open && request.Some? {
        var v := FrameVerdict(prims, client, command, request.value.id, frame);
        if v.Some? {
          timerArmed := false;
          socket := Closed;
          outcome := v;
        }
      }
    }

    /** The timer: if still armed, close the socket and reject with "NWC Timeout". */
    method OnTimeout()
      requires Valid()
      modifies this
      ensures Valid()
      ensures sent == old(sent)
      ensures old(timerArmed) ==> outcome == Some(Rejected(Timeout)) && socket == Closed && !timerArmed
      ensures !old(timerArmed) ==> outcome == old(outcome) && socket == old(socket) && timerArmed == old(timerArmed)
    {
      if timerArmed {
        timerArmed := false;
        socket := Closed;
        outcome := Some(Rejected(Timeout));
      }
    }

    /** The relay closes the socket: nothing handles it, so only the timer can still settle the call. */
    method OnRemoteClose()
      requires Valid()
      modifies this
      ensures Valid()
      ensures socket == Closed
      ensures sent == old(sent) && outcome == old(outcome) && timerArmed == old(timerArmed)
    {
      socket := Closed;
    }
  }
}
