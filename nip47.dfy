/**
 * The NIP-47 command payloads both clients send, the ways a pending command can
 * settle, and the result mappings both clients share.
 */
module Nip47 {
  import opened Wrappers
  import opened Json

  const MAKE_INVOICE := "make_invoice"
  const LOOKUP_INVOICE := "lookup_invoice"
  const PAY_INVOICE := "pay_invoice"

  /** The description `createInvoice` uses when the caller gives none. */
  const DEFAULT_DESCRIPTION := "Blob Spawn"
  /** Invoice expiry in seconds. */
  const INVOICE_EXPIRY := 600
  const MSATS_PER_SAT := 1000

  /** Why a command's promise was rejected. */
  datatype Reason =
    | Timeout                          // "NWC Timeout" after 10 seconds
    | PeerError(message: Option<Json>)  // the wallet's `error.message`
    | DecryptFailed                    // the reply's content could not be decrypted
    | ParseFailed                      // the decrypted text is not JSON
    | TypeErrorThrown                  // a member of `undefined` or `null` was read
    | ConnectFailed                    // the relay connection could not be opened
    | EncryptFailed                    // the request could not be encrypted
    | PublishFailed                    // the relay refused the request event

  /** How a command's promise settles: with the reply's `result` member (None is `undefined`), or rejected. */
  datatype Settlement = Resolved(value: Option<Json>) | Rejected(reason: Reason)

  /**
   * The text a rejection carries, `error.message`: the `message` member of the wallet's
   * truthy `error` value (None when it has none).
   */
  function MessageOf(err: Option<Json>): Option<Json>
  {
    match Prop(err, "message")
    case Value(m) => m
    case TypeError => None
  }

  /** The plaintext of a request: `{method, params}`. */
  function Payload(command: string, params: Json): (r: Json)
    ensures r.JObj? && Lookup(r.fields, "method") == Some(JStr(command)) && Lookup(r.fields, "params") == Some(params)
  {
    JObj([("method", JStr(command)), ("params", params)])
  }

  /**
   * `make_invoice` parameters: the amount in millisatoshis, the description
   * (by default "Blob Spawn") and an expiry of 600 seconds.
   */
  function MakeInvoiceParams(amountSats: int, description: Option<string>): (r: Json)
    ensures r.JObj?
    ensures Lookup(r.fields, "amount") == Some(JNum(amountSats * MSATS_PER_SAT))
    ensures Lookup(r.fields, "expiry") == Some(JNum(INVOICE_EXPIRY))
    ensures description.None? ==> Lookup(r.fields, "description") == Some(JStr(DEFAULT_DESCRIPTION))
    ensures description.Some? ==> Lookup(r.fields, "description") == Some(JStr(description.value))
  {
    var d := if description.Some? then description.value else DEFAULT_DESCRIPTION;
    var fields := [("amount", JNum(amountSats * 1000)), ("description", JStr(d)), ("expiry", JNum(600))];
    assert fields[..2][..1] == [fields[0]];
    JObj(fields)
  }

  /** `lookup_invoice` parameters. */
  function LookupInvoiceParams(paymentHash: string): (r: Json)
    ensures r.JObj? && Lookup(r.fields, "payment_hash") == Some(JStr(paymentHash))
  {
    JObj([("payment_hash", JStr(paymentHash))])
  }

  /** `pay_invoice` parameters. */
  function PayInvoiceParams(invoice: string): (r: Json)
    ensures r.JObj? && Lookup(r.fields, "invoice") == Some(JStr(invoice))
  {
    JObj([("invoice", JStr(invoice))])
  }

  /** What `createInvoice` returns: the reply's `invoice` and `payment_hash` members. */
  datatype Invoice = Invoice(invoice: Option<Json>, paymentHash: Option<Json>)

  /**
   * `createInvoice`'s mapping of the settled command: a rejection passes through,
   * reading members of a missing or null result throws, and otherwise `payment_hash`
   * is renamed to `paymentHash`.
   */
  function InvoiceFrom(s: Settlement): (r: Result<Invoice, Reason>)
    ensures s.Rejected? ==> r == Failure(s.reason)
    ensures s.Resolved? ==> (r.Failure? <==> Prop(s.value, "invoice").TypeError?)
    ensures r.Failure? && s.Resolved? ==> r.error == TypeErrorThrown
    ensures r.Success? ==> s.Resolved? && r.value == Invoice(Prop(s.value, "invoice").value, Prop(s.value, "payment_hash").value)
  {
    match s
    case Rejected(reason) => Failure(reason)
    case Resolved(v) =>
      match Prop(v, "invoice")
      case TypeError => Failure(TypeErrorThrown)
      case Value(invoice) => Success(Invoice(invoice, Prop(v, "payment_hash").value))
  }

  /** `payInvoice`'s mapping: the reply's `preimage` member, with the same failure cases. */
  function PreimageFrom(s: Settlement): (r: Result<Option<Json>, Reason>)
    ensures s.Rejected? ==> r == Failure(s.reason)
    ensures s.Resolved? ==> (r.Failure? <==> Prop(s.value, "preimage").TypeError?)
    ensures r.Failure? && s.Resolved? ==> r.error == TypeErrorThrown
    ensures r.Success? ==> r.value == Prop(s.value, "preimage").value
  {
    match s
    case Rejected(reason) => Failure(reason)
    case Resolved(v) =>
      match Prop(v, "preimage")
      case TypeError => Failure(TypeErrorThrown)
      case Value(p) => Success(p)
  }

  /** A wallet's `make_invoice` result becomes `{invoice, paymentHash}`. */
  lemma InvoiceFromReply(invoice: string, hash: string)
    ensures InvoiceFrom(Resolved(Some(JObj([("invoice", JStr(invoice)), ("payment_hash", JStr(hash))]))))
      == Success(Invoice(Some(JStr(invoice)), Some(JStr(hash))))
  {
    var fields := [("invoice", JStr(invoice)), ("payment_hash", JStr(hash))];
    assert fields[..1] == [fields[0]];
  }
}
