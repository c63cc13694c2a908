/** The parties outside the server and its store: configuration read from the
    process environment, the token service, and the payment and image providers.
    Each provider's answer is an input of the model (an oracle), so every
    property proved below holds whatever the providers answer. */
module Environment {
  import opened Values
  import opened Store

  /** Configuration: the token signing secret, the image provider's API key,
      and the schema defaults of a new user's balance and a new transaction's
      payment flag (the schema files are not part of this model). */
  datatype Env = Env(jwtSecret: Option<string>, clipdropKey: Option<string>, defaultBalance: Balance, defaultPayment: bool)

  /** What verifying a token yields: the `id` claim, which may be absent. */
  datatype Claims = Claims(id: Option<string>)

  /** The order-creation request sent to the payment provider. */
  datatype OrderRequest = OrderRequest(amount: int, currency: string, receipt: string)

  /** A payment provider order as returned by it. */
  datatype Order = Order(id: string, amount: int, currency: string, receipt: string, status: string)

  /** Result of asking the payment provider to create an order. */
  datatype OrderReply = Created(order: Order) | OrderFailed(message: string)

  /** Result of fetching an order's current state from the payment provider. */
  datatype FetchReply = Fetched(status: string, receipt: string) | FetchFailed(message: string)

  /** Result of the text-to-image provider: the image (already in base64 text) or an error message. */
  datatype ImageReply = ImageData(base64: string) | ImageFailed(message: string)

  /** A sign/verify pair that behaves as a token service should: a signed
      `id` claim verifies back to itself, and a token is never empty. */
  ghost predicate HonestTokens(sign: string -> string, verify: string -> Option<Claims>)
  {
    forall s :: sign(s) != "" && verify(sign(s)) == Some(Claims(Some(s)))
  }
}
