/** The uniform JSON response envelope `{ success, message, ... }` with its HTTP
    status, the outbound provider call a request issued (if any), and the
    outcome of a controller: response, new store, call. */
module Envelope {
  import opened Store
  import opened Environment

  /** The payload fields beside `success` and `message`. */
  datatype Body =
    | NoBody
    | Session(token: string, name: string)
    | CreditInfo(credits: Balance, userId: string, name: string)
    | OrderPlaced(order: Order)
    | Image(creditBalance: Balance, resultImage: string)
    | Declined(creditBalance: Balance)
    | BadBalance(userData: UserDoc)

  /** A response; an empty `message` stands for an absent one. */
  datatype Response = Response(status: int, success: bool, message: string, body: Body)

  /** The outbound provider call a request made, if any. */
  datatype Call =
    | NoCall
    | CreateOrder(request: OrderRequest)
    | FetchOrder(orderId: string)
    | TextToImage(prompt: string, apiKey: string)

  /** What a controller produces: the response, the store afterwards, and the provider call it made. */
  datatype Outcome = Outcome(resp: Response, store: Store, call: Call)

  /** A `success: false` response with a message and nothing else. */
  function Fail(status: int, message: string): Response
  {
    Response(status, false, message, NoBody)
  }

  /** A rejection that leaves the store as it was and calls no provider. */
  function Reject(status: int, message: string, store: Store): Outcome
  {
    Outcome(Fail(status, message), store, NoCall)
  }

  /** Shared by the gate and the controllers that look a user up by id. */
  const UserNotFoundMessage := "User not found"

  // Stand-ins for the text of errors raised inside libraries and caught by a controller.
  const DuplicateKeyError := "E11000 duplicate key error"
  const ObjectIdCastError := "Cast to ObjectId failed"
  const NumberCastError := "Cast to Number failed"
  const NoSigningSecretError := "secretOrPrivateKey must have a value"
  const NullPaymentError := "Cannot read properties of null (reading 'payment')"
  const NullBalanceError := "Cannot read properties of null (reading 'creditBalance')"
}
