/** Two places where a handler as written defeats its own evident purpose,
    each with the corrected rule and the intended property proved of it:
    settlement answers "Payment Failed" for the transaction that has not yet
    been paid, and registration saves the user before the signing-secret
    check that guards the token it is about to sign. The handlers in
    UserController keep the behaviour as written. */
module Findings {
  import opened Values
  import opened ObjectIds
  import opened Store
  import opened Environment
  import opened Envelope
  import opened UserController

  // ---------------------------------------------------------------------------
  // Settlement: the guard on the transaction's payment flag is inverted.

  const AlreadySettledMessage := "Payment already settled"

  /** Settlement with the guard the other way round: a paid order whose
      transaction is not yet settled grants its credits and sets the flag; one
      already settled is acknowledged without a second grant. */
  function VerifyRazorpayIntended(orderId: string, store: Store, fetchOrder: string -> FetchReply): (out: Outcome)
    ensures out.call == FetchOrder(orderId) && out.resp.status == 200
    ensures !(fetchOrder(orderId).Fetched? && fetchOrder(orderId).status == PaidStatus) ==>
              out.store == store && !out.resp.success
    ensures out.store != store <==>
              PaidTxn(fetchOrder(orderId), store.txns).Some?
              && var txn := store.txns[PaidTxn(fetchOrder(orderId), store.txns).value];
              && !txn.payment
              && UserById(store.users, txn.userId).Some?
              && UserById(store.users, txn.userId).value.creditBalance.Number?
    ensures out.store != store ==>
              var j := PaidTxn(fetchOrder(orderId), store.txns).value;
              var txn := store.txns[j];
              var i := UserIndex(store.users, txn.userId).value;
              && out.resp.success
              && out.store.txns == store.txns[j := txn.(payment := true)]
              && out.store.users == store.users[i := store.users[i].(creditBalance := AddCredits(store.users[i].creditBalance, txn.credits))]
    ensures PaidTxn(fetchOrder(orderId), store.txns).Some?
            && store.txns[PaidTxn(fetchOrder(orderId), store.txns).value].payment ==>
              out == Outcome(Response(200, true, AlreadySettledMessage, NoBody), store, FetchOrder(orderId))
  {
    var call := FetchOrder(orderId);
    match fetchOrder(orderId)
    case FetchFailed(message) => Outcome(Fail(200, message), store, call)
    case Fetched(status, receipt) =>
      if status != PaidStatus then Outcome(Fail(200, NotPaidMessage), store, call)
      else match Cast(receipt)
        case None => Outcome(Fail(200, ObjectIdCastError), store, call)
        case Some(txnId) =>
          match TxnIndex(store.txns, txnId)
          case None => Outcome(Fail(200, NullPaymentError), store, call)
          case Some(j) =>
            var txn := store.txns[j];
            if txn.payment then Outcome(Response(200, true, AlreadySettledMessage, NoBody), store, call)
            else match UserIndex(store.users, txn.userId)
              case None => Outcome(Fail(200, NullBalanceError), store, call)
              case Some(i) =>
                var user := store.users[i];
                match AddCredits(user.creditBalance, txn.credits)
                case NotANumber => Outcome(Fail(200, NumberCastError), store, call)
                case Number(total) =>
                  var users := store.users[i := user.(creditBalance := Number(total))];
                  var txns := store.txns[j := txn.(payment := true)];
                  assert txns[j].payment != store.txns[j].payment;
                  Outcome(Response(200, true, CreditsAddedMessage, NoBody), Store(users, txns), call)
  }

  /** Setting a transaction's flag does not move it: the lookup by id still finds it. */
  lemma TxnIndexAfterSettle(txns: seq<TxnDoc>, j: nat, id: ObjectId)
    requires TxnIndex(txns, id) == Some(j)
    ensures TxnIndex(txns[j := txns[j].(payment := true)], id) == Some(j)
  {
    var txns' := txns[j := txns[j].(payment := true)];
    forall k | 0 <= k < j
      ensures txns'[k].id != id
    {
      assert txns'[k] == txns[k];
    }
    assert txns'[j].id == id;
    var r := TxnIndex(txns', id);
    assert r.Some? && r.value <= j;
  }

  /** Corrected settlement is idempotent: repeating it (a retried callback)
      changes nothing more. */
  lemma {:induction false} IntendedSettlementIsIdempotent(orderId: string, store: Store, fetchOrder: string -> FetchReply)
    ensures var once := VerifyRazorpayIntended(orderId, store, fetchOrder).store;
            VerifyRazorpayIntended(orderId, once, fetchOrder).store == once
  {
    var once := VerifyRazorpayIntended(orderId, store, fetchOrder).store;
    if once != store {
      var reply := fetchOrder(orderId);
      var j := PaidTxn(reply, store.txns).value;
      TxnIndexAfterSettle(store.txns, j, Cast(reply.receipt).value);
      assert PaidTxn(reply, once.txns) == Some(j);
      assert once.txns[j].payment;
    }
  }

  /** The intended purchase round trip: after a purchase whose order the
      provider reports paid, settlement raises the buyer's balance by exactly
      the plan's credits and marks the transaction paid. */
  lemma IntendedPurchaseRoundTrip(store: Store, env: Env, body: PayBody, txnId: ObjectId, now: int,
                                  createOrder: OrderRequest -> OrderReply, orderId: string,
                                  fetchOrder: string -> FetchReply)
    requires !env.defaultPayment
    requires PaymentRazorpay(body, store, env, txnId, now, createOrder).resp.success
    requires fetchOrder(orderId) == Fetched(PaidStatus, ToHex(txnId))
    requires UserById(store.users, Cast(body.userId.value).value).value.creditBalance.Number?
    ensures var bought := PaymentRazorpay(body, store, env, txnId, now, createOrder).store;
            var settled := VerifyRazorpayIntended(orderId, bought, fetchOrder);
            var i := UserIndex(store.users, Cast(body.userId.value).value).value;
            var plan := PlanOf(body.planId.value).value;
            && settled.resp.success
            && settled.store.users[i].creditBalance == Number(store.users[i].creditBalance.value + plan.credits)
            && settled.store.txns[|store.txns|].payment
  {
    var bought := PaymentRazorpay(body, store, env, txnId, now, createOrder).store;
    var n := |store.txns|;
    CastToHex(txnId);
    assert bought.txns[n].id == txnId;
    assert TxnIndex(bought.txns, txnId) == Some(n);
  }

  // ---------------------------------------------------------------------------
  // Registration: the user is saved before the signing secret is checked.

  /** Registration that checks the signing secret before saving, so that a
      misconfigured server refuses without creating the account. */
  function RegisterUserFailFast(body: RegisterBody, store: Store, env: Env, salt: string, hash: (string, string) -> string,
                                freshId: ObjectId, sign: string -> string): (out: Outcome)
    ensures out.call == NoCall
    ensures !out.resp.success ==> out.store == store
    ensures out.resp.success <==> Admissible(body, store.users) && !UserIdTaken(store.users, freshId) && Present(env.jwtSecret)
    ensures out.resp.success ==>
              && out.resp == Response(201, true, "", Session(sign(ToHex(freshId)), body.name.value))
              && out.store.users == store.users + [UserDoc(freshId, body.name.value, body.email.value,
                                                           hash(body.password.value, salt), env.defaultBalance)]
  {
    if !Complete(body) then Reject(400, MissingDetailsMessage, store)
    else if Utf16Length(body.password.value) < MinPasswordLength then Reject(400, ShortPasswordMessage, store)
    else match UserIndexByEmail(store.users, body.email.value)
      case Some(_) => Reject(400, EmailRegisteredMessage, store)
      case None =>
        if UserIndex(store.users, freshId).Some? then Reject(500, DuplicateKeyError, store)
        else if !Present(env.jwtSecret) then Reject(500, NoSecretMessage, store)
        else
          var user := UserDoc(freshId, body.name.value, body.email.value, hash(body.password.value, salt), env.defaultBalance);
          Outcome(Response(201, true, "", Session(sign(ToHex(user.id)), user.name)), store.(users := store.users + [user]), NoCall)
  }

  /** With the secret configured the corrected registration and the one as
      written agree on every input. */
  lemma FailFastAgreesWhenConfigured(body: RegisterBody, store: Store, env: Env, salt: string,
                                     hash: (string, string) -> string, freshId: ObjectId, sign: string -> string)
    requires Present(env.jwtSecret)
    ensures RegisterUserFailFast(body, store, env, salt, hash, freshId, sign)
              == RegisterUser(body, store, env, salt, hash, freshId, sign)
  {
  }

  /** As written, registering while the secret is missing answers 500 yet
      keeps the new account, so retrying the same request is then refused
      with "Email is already registered". */
  lemma RegisterWithoutSecretKeepsUser(body: RegisterBody, store: Store, env: Env, salt: string,
                                       hash: (string, string) -> string, freshId: ObjectId, retryId: ObjectId,
                                       sign: string -> string)
    requires Admissible(body, store.users) && !UserIdTaken(store.users, freshId)
    requires !Present(env.jwtSecret)
    ensures var out := RegisterUser(body, store, env, salt, hash, freshId, sign);
            && out.resp == Fail(500, NoSecretMessage)
            && |out.store.users| == |store.users| + 1
            && RegisterUser(body, out.store, env, salt, hash, retryId, sign).resp == Fail(400, EmailRegisteredMessage)
  {
    var out := RegisterUser(body, store, env, salt, hash, freshId, sign);
    assert out.store.users[|store.users|].email == body.email.value;
  }
}
