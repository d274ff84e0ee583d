# Blob battle royale: wallet clients, physics and winner detection in Dafny

This project models the core of a blob battle-royale game whose entry fees and
payouts go through Nostr Wallet Connect (NIP-47):

- **`SimpleNwc`** (`simple_nwc.dfy`) is the hand-built client of `lib/simple-nwc.ts`.
  It covers connection-string parsing, the AES-CBC content envelope (`ciphertext?iv=iv`,
  base64 via the fallback loops and `btoa`), and the NIP-01 event id and signature.
  It also covers the REQ filter and the `onmessage` reply policy. The state machine
  of one `execute` call is the class `Execution`: socket, 10-second timer, promise.
- **`NwcHelper`** (`nwc.dfy`) is the client of `lib/nwc.ts`, built on a Nostr
  library. It covers parsing with the optional `lud16`, the constructor, and
  `encryptAndSign`. It also covers the subscription filter and the `onevent` reply
  policy. `executeNWCCommand` is the class `CommandRun`: subscription, timer that is
  never cleared, awaited publish, and the relay closed in `finally`.
- **`Nip47`** (`nip47.dfy`) holds what both clients share. That is the command
  payloads and parameters, the ways a command settles, and the `createInvoice` /
  `payInvoice` result mappings.
- **`Nostr`** (`nostr.dfy`) holds the protocol data. That is the split connection
  URI, events and tags, the NIP-01 id preimage `[0, pubkey, created_at, kind, tags,
  content]`, and filters with the NIP-01 matching rule.
- **`Json`, `Text`, `Base64`** are the JavaScript value operations the clients rely
  on. `Json` covers property access and truthiness on JSON values. `Text` covers
  `indexOf`, `replace` and `split`. `Base64` is RFC 4648, section 4, plus the
  binary-string loops.
- **`Physics`** (`physics.dfy`) is `lib/game/PhysicsEngine.ts`. The class
  `PhysicsEngine` holds the blob list that `addBlob`, `handleCollision` and `update`
  change in place. `update` is proved against a specification of its backward pair
  loop, which can stop with a read past the end.
- **`Winner`** (`winner.dfy`) is the winner-detection effect of
  `components/GameCanvas.tsx`. The class `WinnerDetector` holds the peak blob count.

Cryptography, hashing, JSON text, `atob`, `Math.sqrt` and `Math.random` are not
defined here. Each operation that needs them takes them as parameters: a
`Primitives` record of functions, a `sqrt` function, or a coin. Time is a
`nowMs` parameter, and the random IV is an `iv` parameter. Socket, relay and timer
callbacks are the methods of the state-machine classes. Any order of calls to those
methods models an interleaving of the callbacks.

## Model

| member | source | states |
|---|---|---|
| `Json.Prop` | lib/nwc.ts:86-96 | `v.key` throws exactly on `undefined`/`null`, reads the member of an object, and is `undefined` on other values |
| `Json.TruthyReadable` | lib/nwc.ts:60 | reading a member of a truthy value never throws (why `res && res.settled_at` is safe) |
| `Text.ReplaceFirst` | lib/simple-nwc.ts:97 | string `replace` with a string pattern rewrites only the first occurrence, leaves a string without one unchanged, and turns a leading match into the replacement plus the rest |
| `Text.SplitFirstTwo` | lib/simple-nwc.ts:219 | the first two parts of `split`: the text before the first separator and, when there is one, the text up to the next separator or the end; absent exactly when the separator does not occur |
| `Text.FirstOccurrenceFound` | lib/simple-nwc.ts:219 | the search from index 0, as `indexOf` does it, finds no match exactly when the pattern never occurs, and otherwise finds its first occurrence |
| `Text.SplitJoin` | lib/simple-nwc.ts:219 | `split` on a separator gives back both joined parts when neither contains the separator's first character |
| `Base64.Encode` | lib/simple-nwc.ts:14 | base64 output has four characters per started 3-byte group, all from the RFC 4648 alphabet |
| `Base64.EncodeHasNoQuestionMark` | lib/simple-nwc.ts:213-219 | base64 text never contains `?`, so the `?iv=` marker cannot occur inside either part |
| `Base64.Btoa` | lib/simple-nwc.ts:14 | `btoa` succeeds exactly when every character is below 256 |
| `Base64.BinaryRoundTrip` | lib/simple-nwc.ts:9-23 | the decode loop inverts the encode loop for all byte values, and `btoa` of the binary string is the base64 of the bytes |
| `Base64.EncodeBase64` | lib/simple-nwc.ts:7-15 | the encode loop plus `btoa` computes the RFC 4648 base64 of the bytes |
| `Base64.BytesOfBinary` | lib/simple-nwc.ts:20-24 | a fresh array whose byte i is the code of character i truncated to 8 bits |
| `Base64.DecodeBytes` | lib/simple-nwc.ts:17-25 | decoding fails exactly when `atob` fails, has one byte per binary character, and inverts encoding: base64 text of bytes b decodes to b |
| `Base64.DecodeBase64` | lib/simple-nwc.ts:17-25 | the decode loop fills a fresh array with exactly the bytes `DecodeBytes` describes, and fails when it does |
| `Nostr.EventIdIgnoresIdAndSig` | lib/simple-nwc.ts:118-122 | the id does not depend on the `id` and `sig` fields, so it can be computed first and set afterwards |
| `Nostr.PubkeyOf` | lib/simple-nwc.ts:60 | the host name when there is one; otherwise the path name with its first `//` removed (a leading `//` drops the first two characters), or unchanged when it holds no `//` |
| `Nostr.PreimageInjective` | lib/simple-nwc.ts:183-191 | equal preimages mean equal pubkey, created_at, kind, tags (in order) and content |
| `Nostr.RequestKindFilterMissesResponses` | lib/simple-nwc.ts:133 | a filter for kind 23194 alone never matches a kind-23195 NIP-47 response |
| `Nip47.Payload` | lib/simple-nwc.ts:109 | the request plaintext is an object with `method` and `params` |
| `Nip47.MakeInvoiceParams` | lib/simple-nwc.ts:70-75 | amount is sats × 1000, expiry is 600, and the description defaults to "Blob Spawn" |
| `Nip47.LookupInvoiceParams` | lib/simple-nwc.ts:84 | the parameters carry `payment_hash` |
| `Nip47.PayInvoiceParams` | lib/simple-nwc.ts:92 | the parameters carry `invoice` |
| `Nip47.InvoiceFrom` | lib/simple-nwc.ts:76-79 | a rejection passes through; a missing or null result throws; otherwise `invoice` is kept and `payment_hash` becomes `paymentHash` |
| `Nip47.PreimageFrom` | lib/simple-nwc.ts:93 | a rejection passes through; a missing or null result throws; otherwise the result is `preimage` |
| `Nip47.InvoiceFromReply` | lib/nwc.ts:51-54 | a concrete `make_invoice` result maps to `{invoice, paymentHash}` |
| `SimpleNwc.ParseConnectionString` | lib/simple-nwc.ts:55-68 | succeeds iff the scheme is right and pubkey, relay and secret are non-empty; the two error messages; the result holds exactly those values |
| `SimpleNwc.ParseConnectionUrl` | lib/simple-nwc.ts:55-68 | parsing the URI of a connection with non-empty fields gives that connection |
| `SimpleNwc.NewClient` | lib/simple-nwc.ts:40-48 | construction succeeds iff parsing succeeds and the secret yields a public key, which the client keeps |
| `SimpleNwc.SecureRelayUrl` | lib/simple-nwc.ts:97 | a `ws://` relay becomes `wss://` with the rest unchanged; a relay without `ws://` is unchanged |
| `SimpleNwc.SecureRelayUrlKeepsWss` | lib/simple-nwc.ts:97 | a `wss://` relay keeps its scheme and is unchanged when `ws://` does not occur in it |
| `SimpleNwc.EncryptState` | lib/simple-nwc.ts:201-216 | fails iff key agreement fails; the IV part is the base64 of the IV; neither part contains `?` |
| `SimpleNwc.DecryptState` | lib/simple-nwc.ts:218-233 | "Missing IV" exactly when the split has no non-empty IV part; success exactly when both base64 parts decode, key agreement works and AES-CBC accepts the ciphertext, and then the text is the UTF-8 decoding of the plaintext |
| `SimpleNwc.NoMarkerMissingIv` | lib/simple-nwc.ts:219-220 | content without `?iv=` is rejected with "Missing IV" |
| `SimpleNwc.WireContent` | lib/simple-nwc.ts:116 | the `content + '?iv=' + iv` join splits back into the two parts when neither contains `?` |
| `SimpleNwc.EnvelopeRoundTrip` | lib/simple-nwc.ts:201-233 | when `atob`, AES-CBC and UTF-8 invert their counterparts, decrypting a request's content gives its plaintext |
| `SimpleNwc.RequestEvent` | lib/simple-nwc.ts:112-124 | kind 23194, a single `["p", wallet]` tag, the given content and time, own pubkey, the id hashed from the final fields, and a signature over the id |
| `SimpleNwc.BuildRequest` | lib/simple-nwc.ts:108-124 | a request exists iff encryption works; it is the signed request event at `floor(now/1000)` whose content is the envelope of the JSON `{method, params}` payload |
| `SimpleNwc.RequestDecrypts` | lib/simple-nwc.ts:108-116 | under the envelope assumptions, the request content decrypts to the JSON text of the payload |
| `SimpleNwc.ReplyFilter` | lib/simple-nwc.ts:129-137 | an event matches the REQ filter iff it is kind 23194, authored by the wallet and tags the request id with `e` |
| `SimpleNwc.ReplyFilterMissesWalletReplies` | lib/simple-nwc.ts:129-137 | the REQ filter never matches a kind-23195 wallet reply |
| `SimpleNwc.ResponseFilter` | lib/simple-nwc.ts:129-137 | with kind 23195, an event matches iff it is a kind-23195 event by the wallet tagging the request id |
| `SimpleNwc.ReplyVerdict` | lib/simple-nwc.ts:150-161 | a null reply is ignored; a truthy `error` rejects with `error.message` except for `lookup_invoice`; otherwise `result` resolves |
| `SimpleNwc.FrameVerdict` | lib/simple-nwc.ts:143-166 | only an EVENT frame carrying `["e", id]` whose content decrypts can settle; such a frame settles as its parsed reply says, and is ignored when the text does not parse; a lookup never rejects |
| `SimpleNwc.ReplyFrameSettles` | lib/simple-nwc.ts:143-161 | a reply encrypted for the client, tagged with the request id and sent as an EVENT frame settles exactly as its JSON body says |
| `SimpleNwc.LookupResult` | lib/simple-nwc.ts:82-89 | true iff the command resolved to a value with a truthy `settled_at`; every failure is false |
| `SimpleNwc.LookupErrorReplyIsUnsettled` | lib/simple-nwc.ts:151-161 | a wallet error reply to a lookup ends as false, not as an error |
| `SimpleNwc.Execution.constructor` | lib/simple-nwc.ts:97-124 | `wss://` URL; when the socket is created: the request event built, socket connecting, timer armed, nothing sent, unsettled; when `new WebSocket` refuses the URL: no timer, nothing sent, and no later callback can settle the call |
| `SimpleNwc.Execution.OnOpen` | lib/simple-nwc.ts:126-141 | on opening, sends the REQ with the reply filter and then the signed event, in that order |
| `SimpleNwc.Execution.OnMessage` | lib/simple-nwc.ts:143-173 | a frame whose verdict settles closes the socket, clears the timer and settles once; other frames change nothing |
| `SimpleNwc.Execution.OnTimeout` | lib/simple-nwc.ts:103-106 | an armed timer closes the socket and rejects with "NWC Timeout"; a settled call is unchanged |
| `SimpleNwc.Execution.OnRemoteClose` | lib/simple-nwc.ts:99-106 | the socket closing settles nothing; only the timer can still settle the call |
| `NwcHelper.ParseConnectionString` | lib/nwc.ts:28-44 | as in the hand-built client, plus `lud16` kept exactly when present and non-empty, with its own error message |
| `NwcHelper.NewHelper` | lib/nwc.ts:19-26 | succeeds iff parsing and key derivation succeed; the constructor's missing-secret error can never occur |
| `NwcHelper.EncryptAndSign` | lib/nwc.ts:113-123 | exists iff NIP-04 encryption works; kind 23194, a single `["p", wallet]` tag, `floor(now/1000)`, own pubkey, consistent id, Schnorr signature over the id |
| `NwcHelper.SubscriptionFilter` | lib/nwc.ts:75-82 | an event matches iff it is kind 23194, authored by the wallet, and tags this client (`p`) and the request (`e`) |
| `NwcHelper.SubscriptionFilterMissesWalletReplies` | lib/nwc.ts:75-82 | the subscription never matches a kind-23195 wallet reply |
| `NwcHelper.ResponseFilter` | lib/nwc.ts:75-82 | with kind 23195, an event matches iff it is a kind-23195 event by the wallet tagging this client and the request |
| `NwcHelper.ReplyVerdict` | lib/nwc.ts:86-96 | a null reply rejects with a TypeError; a truthy `error` resolves null for `lookup_invoice` and otherwise rejects with `error.message`; otherwise `result` resolves |
| `NwcHelper.EventVerdict` | lib/nwc.ts:83-101 | every delivered event settles; an undecryptable content rejects; a decrypted text that parses settles as its reply says, and one that does not parse rejects |
| `NwcHelper.LookupResult` | lib/nwc.ts:57-61 | rejections propagate; true iff the response is truthy with a truthy `settled_at` |
| `NwcHelper.LookupErrorReplyIsUnsettled` | lib/nwc.ts:87-91 | a wallet error reply to a lookup resolves null, and the lookup then reports false |
| `NwcHelper.CommandRun.constructor` | lib/nwc.ts:68-82 | a failed connect rejects with nothing closed; a failed encryption rejects with the relay closed once; neither opens a subscription or arms a timer; otherwise subscribe before publish, timer armed |
| `NwcHelper.CommandRun.OnPublished` | lib/nwc.ts:106-110 | a refused publish rejects and closes the relay; an accepted one takes over the response, closing the relay once it settles; only the first completion counts; subscription and timer untouched |
| `NwcHelper.CommandRun.OnEvent` | lib/nwc.ts:83-101 | the first event on an open subscription settles the response, marks it delivered and closes the subscription, leaving the timer armed; any later event changes nothing |
| `NwcHelper.CommandRun.OnTimeout` | lib/nwc.ts:103 | an armed timer closes the subscription again (twice after an event) and rejects only if nothing settled first; a spent timer changes nothing |
| `Physics.ClampAxis` | lib/game/PhysicsEngine.ts:36-51 | after the clamps the blob lies within the far wall, and within the near wall when it fits; an unclamped move is kept; the velocity is kept or negated |
| `Physics.MoveBlob` | lib/game/PhysicsEngine.ts:31-52 | both bounds hold after moving; velocities keep or flip their sign; no other field changes |
| `Physics.MoveAll` | lib/game/PhysicsEngine.ts:31 | every blob is moved, with the list length kept |
| `Physics.RemoveAt` | lib/game/PhysicsEngine.ts:116 | `splice(k, 1)` drops exactly index k and keeps the others in order |
| `Physics.Outer` | lib/game/PhysicsEngine.ts:56-70 | the pair loop as written keeps the total mass, never adds blobs, and stops early only at an index past the end of the list |
| `Physics.Inner` | lib/game/PhysicsEngine.ts:57-69 | the same from any inner-loop position |
| `Physics.CollisionPass` | lib/game/PhysicsEngine.ts:56-70 | the whole pass keeps the total mass and never adds blobs, whether it completes or reads past the end |
| `Physics.TotalMassRemoveAt` | lib/game/PhysicsEngine.ts:116 | removing the prey lowers the total mass by its mass |
| `Physics.TotalMassUpdate` | lib/game/PhysicsEngine.ts:109 | replacing the predator changes the total mass by the difference of masses |
| `Physics.PreyIndex` | lib/game/PhysicsEngine.ts:85-103 | the strictly smaller radius is eaten; on a tie the coin decides |
| `Physics.Average` | lib/game/PhysicsEngine.ts:112-113 | the weighted average of the velocities |
| `Physics.Absorbed` | lib/game/PhysicsEngine.ts:106-113 | summed mass; `r'² = r1² + r2²`; velocities averaged with the increased mass; identity and position unchanged |
| `Physics.Collide` | lib/game/PhysicsEngine.ts:73-117 | no change when an index is out of range; otherwise one blob fewer, and the total mass is kept for distinct indices |
| `Physics.CollideRemovesPrey` | lib/game/PhysicsEngine.ts:85-116 | exactly the prey goes; the predator becomes its absorbed self; every other blob keeps its value and order |
| `Physics.UpdateCanReadPastEnd` | lib/game/PhysicsEngine.ts:56-61 | three coincident blobs make the pair loop read `blobs[2]` of a two-blob list |
| `Physics.GuardedOuter` | lib/game/PhysicsEngine.ts:56-70 | the corrected pair loop always completes, conserves total mass and never adds blobs |
| `Physics.GuardedInner` | lib/game/PhysicsEngine.ts:57-69 | the corrected inner loop conserves total mass and never adds blobs |
| `Physics.CompletedPassAgrees` | lib/game/PhysicsEngine.ts:56-70 | where the loop as written completes, it computes the same list as the corrected loop |
| `Physics.CompletedInnerAgrees` | lib/game/PhysicsEngine.ts:57-69 | the same agreement from any inner-loop position |
| `Physics.AbsorbedLosesMomentum` | lib/game/PhysicsEngine.ts:112-113 | the momentum averaging as written does not conserve momentum (two unit masses: 1/3 instead of 1/2) |
| `Physics.ConservingAbsorbed` | lib/game/PhysicsEngine.ts:106-113 | absorption averaged with pre-merge masses conserves both momentum components |
| `Physics.PhysicsEngine.constructor` | lib/game/PhysicsEngine.ts:19-23 | the given size and an empty blob list |
| `Physics.PhysicsEngine.AddBlob` | lib/game/PhysicsEngine.ts:25-27 | the blob is appended and the existing blobs are kept |
| `Physics.PhysicsEngine.HandleCollision` | lib/game/PhysicsEngine.ts:73-117 | the list becomes `Collide` of the old list |
| `Physics.PhysicsEngine.MoveStep` | lib/game/PhysicsEngine.ts:31-52 | every blob of the list is moved in place, as `MoveAll` of the old list |
| `Physics.PhysicsEngine.CollisionStep` | lib/game/PhysicsEngine.ts:56-70 | the nested backward loops compute the pair-loop specification; false exactly when it reads past the end |
| `Physics.PhysicsEngine.Update` | lib/game/PhysicsEngine.ts:29-71 | the list becomes the pair loop run on the moved blobs; `completed` is false exactly when that loop reads past the end |
| `Winner.NextPeak` | components/GameCanvas.tsx:78-81 | inactive resets the peak to 0; active raises it to the larger of the peak and the count |
| `Winner.Declares` | components/GameCanvas.tsx:80-85 | a run declares exactly when the round is active, one blob is left and more than one was seen before this run |
| `Winner.PeakStaysLow` | components/GameCanvas.tsx:78-81 | with at most one blob per render, the peak never exceeds one |
| `Winner.NoWinnerWithoutBattle` | components/GameCanvas.tsx:77-88 | a round in which at most one blob was ever present never declares a winner |
| `Winner.PeakMonotoneWhileActive` | components/GameCanvas.tsx:81 | while active, the peak never decreases and covers every count seen |
| `Winner.InactiveResets` | components/GameCanvas.tsx:78-79 | an inactive render resets the peak whatever came before |
| `Winner.DeclaresRepeatedly` | components/GameCanvas.tsx:84-85 | the detector does not latch: another active one-blob render declares again |
| `Winner.WinnerDetector.constructor` | components/GameCanvas.tsx:20 | the peak starts at 0 |
| `Winner.WinnerDetector.OnRender` | components/GameCanvas.tsx:77-88 | the peak update; a winner iff a callback is set, the round is active, the peak exceeds 1 and one blob remains; the winner is `blobs[0]` |

## Left out

- Cryptography is not modelled; each operation is a caller-supplied function. That covers secp256k1 key derivation and ECDH, SHA-256, AES-CBC, NIP-04, the random IV and signing. `lib/simple-nwc.ts` signs with ECDSA (`secp256k1.sign`, lines 196-199), whereas NIP-01 requires a BIP-340 Schnorr signature. The model records which one is called but does not check either.
- The `Buffer` branches of `encodeBase64`/`decodeBase64` (lib/simple-nwc.ts:8, 18) are not modelled. Only the fallback loops and `btoa` are; `atob` is a supplied function.
- WHATWG URL parsing and JSON text are not modelled. A connection string arrives already split into protocol, host name, path name and query values. `JSON.stringify`/`JSON.parse` are supplied functions. JSON numbers are integers, and strings are `seq<char>`, without UTF-16 code-unit detail.
- WebSocket and relay I/O, `setTimeout` and promise scheduling are not modelled as such. The state-machine methods are their callbacks, and any order of calls stands for an interleaving. The `onerror` handler (lib/simple-nwc.ts:175-177) and the `EOSE` and `klosed` branches (lines 167-172) only log, so they are absent. The fresh subscription id of `onopen` is a parameter.
- `SimpleNwc.Execution.OnMessage`: the await inside `onmessage` is not modelled. Two frames whose decryptions overlap in time could both reach `resolve`/`reject`. The model handles frames one at a time, so the first one settles; a promise also ignores later settlements.
- `NwcHelper.CommandRun.OnEvent`: the awaits inside `onevent` (lib/nwc.ts:83-99) are not modelled. Two events whose decryptions overlap could both call `sub.close()` and both try to settle. The model delivers events one at a time, so only the first one settles and closes the subscription.
- `NwcHelper.LookupResult`: for a falsy response `res && ...` returns that value (`null`) rather than `false`; the model reports `false`.
- `NwcHelper.CommandRun.constructor`: `Relay.connect` is an input flag (connected or not).
- `Physics.Average`: a zero `predator.mass + prey.mass` divisor yields NaN (zero momentum sum) or ±Infinity (non-zero momentum sum) in the source, and 0 here.
- Physics numerics are reals, not IEEE doubles. `Math.sqrt` is a function, assumed to be a square root only where `IsSqrt` is stated. The `Math.random() > 0.5` tie-break is a coin, one per pair `(i, j)` in `update`.
- `Physics.PhysicsEngine`: blobs are values in a list, so aliasing is not modelled. The source's blobs are shared objects updated in place, for example the same object pushed twice, or a blob the caller still holds.
- `Physics.Collide`: when both indices are the same, the source grows that blob before splicing it out. The growth is only visible through an alias, so the model just removes the blob.
- These parts are not part of this model, being UI, HTTP handlers or randomness:
  - `app/page.tsx`, including its 2-second polling and the floating-point payout;
  - the API routes under `app/api/`;
  - `lib/game/utils.ts` (`createBlob`);
  - `lib/hooks/useGameLoop.ts`;
  - canvas drawing and resizing in `components/GameCanvas.tsx`.

## Findings

| source | as written | input that shows it | evidently intended | confidence | as-written member | corrected member |
|---|---|---|---|---|---|---|
| lib/game/PhysicsEngine.ts:56-61 | after `handleCollision` splices, the inner loop keeps reading `this.blobs[i]` without a bound check; `b1.x` then throws a TypeError mid-update | three coincident blobs with radii 10, 20, 30: blob 2 eats blob 1, and the next step reads `blobs[2]` of a two-element list | skip the remaining pairs of `i` once `blobs[i]` is gone, as the guard at line 78 intends | not executed; high | `Physics.UpdateCanReadPastEnd` | `Physics.GuardedOuter` |
| lib/game/PhysicsEngine.ts:109-113 | velocities are averaged after `predator.mass += prey.mass`, so the predator's weight counts the prey twice | predator mass 1 at rest, prey mass 1 at speed 1: merged speed 1/3, momentum 2/3 instead of 1 | average with the masses before the merge (momentum conservation) | not executed; medium | `Physics.AbsorbedLosesMomentum` | `Physics.ConservingAbsorbed` |
| lib/simple-nwc.ts:133 | the reply subscription asks for kind 23194, the request kind | a wallet reply of kind 23195 by the wallet tagging the request id fails the filter, so only the timeout settles | subscribe to the NIP-47 response kind 23195 | not executed; high | `SimpleNwc.ReplyFilterMissesWalletReplies` | `SimpleNwc.ResponseFilter` |
| lib/nwc.ts:77 | the subscription asks for kind 23194, the request kind | a wallet reply of kind 23195 tagging this client and the request fails the filter | subscribe to the NIP-47 response kind 23195 | not executed; high | `NwcHelper.SubscriptionFilterMissesWalletReplies` | `NwcHelper.ResponseFilter` |
