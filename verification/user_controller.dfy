/** The user controller: registration, login, the balance read, and the two
    halves of a credit purchase (creating a payment order, and settling it once
    the payment provider reports it paid). Each handler is a function from the
    request, the store and the external parties' answers to an outcome. */
module UserController {
  import opened Values
  import opened ObjectIds
  import opened Store
  import opened Environment
  import opened Envelope

  // ---------------------------------------------------------------------------
  // Registration and login

  datatype RegisterBody = RegisterBody(name: Option<string>, email: Option<string>, password: Option<string>)

  datatype LoginBody = LoginBody(email: string, password: string)

  const MinPasswordLength: nat := 8
  const MissingDetailsMessage := "Missing Details"
  const ShortPasswordMessage := "Password must be at least 8 characters long"
  const EmailRegisteredMessage := "Email is already registered"
  const NoSecretMessage := "JWT_SECRET is not defined in environment variables"

  /** Name, email and password are all present and non-empty. */
  predicate Complete(body: RegisterBody)
  {
    Present(body.name) && Present(body.email) && Present(body.password)
  }

  /** Everything a registration checks about its request before saving. */
  predicate Admissible(body: RegisterBody, users: seq<UserDoc>)
  {
    Complete(body) && Utf16Length(body.password.value) >= MinPasswordLength && !EmailTaken(users, body.email.value)
  }

  /** `registerUser`. The password is hashed with the oracle `hash` under a fresh
      salt; `freshId` is the id the database assigns; `sign` issues the token. */
  function RegisterUser(body: RegisterBody, store: Store, env: Env, salt: string, hash: (string, string) -> string,
                        freshId: ObjectId, sign: string -> string): (out: Outcome)
    ensures out.call == NoCall && out.store.txns == store.txns
    ensures !Complete(body) ==> out == Reject(400, MissingDetailsMessage, store)
    ensures Complete(body) && Utf16Length(body.password.value) < MinPasswordLength ==> out == Reject(400, ShortPasswordMessage, store)
    ensures Complete(body) && Utf16Length(body.password.value) >= MinPasswordLength && EmailTaken(store.users, body.email.value) ==>
              out == Reject(400, EmailRegisteredMessage, store)
    ensures out.resp.status == 400 <==> !Admissible(body, store.users)
    ensures out.resp.success <==> Admissible(body, store.users) && !UserIdTaken(store.users, freshId) && Present(env.jwtSecret)
    ensures out.resp.success ==> out.resp.status == 201 && out.resp.body == Session(sign(ToHex(freshId)), body.name.value)
    ensures out.store == store || (
              Admissible(body, store.users)
              && out.store.users == store.users + [UserDoc(freshId, body.name.value, body.email.value,
                                                           hash(body.password.value, salt), env.defaultBalance)])
    ensures out.resp.success ==> out.store != store
  {
    if !Complete(body) then Reject(400, MissingDetailsMessage, store)
    else if Utf16Length(body.password.value) < MinPasswordLength then Reject(400, ShortPasswordMessage, store)
    else match UserIndexByEmail(store.users, body.email.value)
      case Some(_) => Reject(400, EmailRegisteredMessage, store)
      case None =>
        if UserIndex(store.users, freshId).Some? then Reject(500, DuplicateKeyError, store)
        else
          var user := UserDoc(freshId, body.name.value, body.email.value, hash(body.password.value, salt), env.defaultBalance);
          var saved := store.(users := store.users + [user]);
          assert |saved.users| != |store.users|;
          if !Present(env.jwtSecret) then Outcome(Fail(500, NoSecretMessage), saved, NoCall)
          else Outcome(Response(201, true, "", Session(sign(ToHex(user.id)), user.name)), saved, NoCall)
  }

  /** The length check counts UTF-16 code units, as JavaScript's `length`
      does: four characters from outside the Basic Multilingual Plane make a
      password of length 8, which the check lets through, while three do not. */
  lemma AstralPasswordLength(c: char)
    requires (c as int) >= 0x1_0000
    ensures Utf16Length([c, c, c, c]) == MinPasswordLength
    ensures Utf16Length([c, c, c]) < MinPasswordLength
  {
    assert [c][1..] == [];
    assert Utf16Length([c]) == 2;
    assert [c, c][1..] == [c];
    assert Utf16Length([c, c]) == 4;
    assert [c, c, c][1..] == [c, c];
    assert Utf16Length([c, c, c]) == 6;
    assert [c, c, c, c][1..] == [c, c, c];
  }

  const UnknownEmailMessage := "Email is required"
  const BadCredentialsMessage := "Invalid credentials"

  /** `loginUser`. `compare` is the password-hash comparison. */
  function LoginUser(body: LoginBody, store: Store, env: Env, compare: (string, string) -> bool,
                     sign: string -> string): (out: Outcome)
    ensures out.store == store && out.call == NoCall
    ensures out.resp.status == 200
    ensures !EmailTaken(store.users, body.email) ==> out.resp == Fail(200, UnknownEmailMessage)
    ensures out.resp.success <==>
              UserByEmail(store.users, body.email).Some?
              && compare(body.password, UserByEmail(store.users, body.email).value.password)
              && Present(env.jwtSecret)
    ensures out.resp.success ==>
              var u := UserByEmail(store.users, body.email).value;
              out.resp.body == Session(sign(ToHex(u.id)), u.name)
    ensures UserByEmail(store.users, body.email).Some?
              && !compare(body.password, UserByEmail(store.users, body.email).value.password) ==>
              out.resp == Fail(200, BadCredentialsMessage)
  {
    match UserByEmail(store.users, body.email)
    case None => Reject(200, UnknownEmailMessage, store)
    case Some(user) =>
      if !compare(body.password, user.password) then Reject(200, BadCredentialsMessage, store)
      else if !Present(env.jwtSecret) then Reject(200, NoSigningSecretError, store)
      else Outcome(Response(200, true, "", Session(sign(ToHex(user.id)), user.name)), store, NoCall)
  }

  // ---------------------------------------------------------------------------
  // Balance read

  const MissingUserIdMessage := "User ID is missing from request"

  /** `userCredits`. `reqUser` is the user the gate attached, if any; the balance
      reported is the one stored now, looked up by the attached user's id string. */
  function UserCredits(reqUser: Option<UserDoc>, store: Store): (out: Outcome)
    ensures out.store == store && out.call == NoCall
    ensures reqUser.None? ==> out.resp == Fail(400, MissingUserIdMessage)
    ensures reqUser.Some? && !UserIdTaken(store.users, reqUser.value.id) ==> out.resp == Fail(404, UserNotFoundMessage)
    ensures out.resp.success <==> reqUser.Some? && UserIdTaken(store.users, reqUser.value.id)
    ensures out.resp.success ==>
              var stored := UserById(store.users, reqUser.value.id).value;
              out.resp.status == 200
              && out.resp.body == CreditInfo(stored.creditBalance, ToHex(reqUser.value.id), stored.name)
  {
    match reqUser
    case None => Reject(400, MissingUserIdMessage, store)
    case Some(u) =>
      var userId := ToHex(u.id);
      CastToHex(u.id);
      match UserById(store.users, Cast(userId).value)
      case None => Reject(404, UserNotFoundMessage, store)
      case Some(user) =>
        Outcome(Response(200, true, "", CreditInfo(user.creditBalance, ToHex(user.id), user.name)), store, NoCall)
  }

  // ---------------------------------------------------------------------------
  // Purchase: order creation

  /** A credit package: credits granted for an amount in rupees. */
  datatype Plan = Plan(name: string, credits: int, amount: int)

  const InvalidPlanMessage := "Invalid Plan"
  const Currency := "INR"
  /** Paise per rupee: the provider takes amounts in the minor unit. */
  const MinorUnits := 100

  /** The fixed plan table. */
  function PlanOf(planId: string): (p: Option<Plan>)
    ensures planId == "Basic" ==> p == Some(Plan("Basic", 100, 10))
    ensures planId == "Advanced" ==> p == Some(Plan("Advanced", 500, 50))
    ensures planId == "Business" ==> p == Some(Plan("Business", 5000, 250))
    ensures p.Some? <==> planId in {"Basic", "Advanced", "Business"}
    ensures p.Some? ==> p.value.name == planId && p.value.credits > 0 && p.value.amount > 0
  {
    match planId
    case "Basic" => Some(Plan("Basic", 100, 10))
    case "Advanced" => Some(Plan("Advanced", 500, 50))
    case "Business" => Some(Plan("Business", 5000, 250))
    case _ => None
  }

  datatype PayBody = PayBody(userId: Option<string>, planId: Option<string>)

  /** The request names a stored user and a known plan. */
  predicate Purchasable(body: PayBody, users: seq<UserDoc>)
  {
    && Present(body.userId) && Present(body.planId)
    && Cast(body.userId.value).Some?
    && UserIdTaken(users, Cast(body.userId.value).value)
    && PlanOf(body.planId.value).Some?
  }

  /** `paymentRazorpay`. `freshId` is the id the database assigns to the new
      transaction, `now` the clock, `createOrder` the payment provider. */
  function PaymentRazorpay(body: PayBody, store: Store, env: Env, freshId: ObjectId, now: int,
                           createOrder: OrderRequest -> OrderReply): (out: Outcome)
    ensures out.store.users == store.users
    ensures !Present(body.userId) || !Present(body.planId) ==> out == Reject(400, MissingDetailsMessage, store)
    ensures Present(body.userId) && Present(body.planId) && Cast(body.userId.value).None? ==>
              out == Reject(500, ObjectIdCastError, store)
    ensures Present(body.userId) && Present(body.planId) && Cast(body.userId.value).Some?
              && !UserIdTaken(store.users, Cast(body.userId.value).value) ==>
              out == Reject(404, UserNotFoundMessage, store)
    ensures Present(body.userId) && Present(body.planId) && Cast(body.userId.value).Some?
              && UserIdTaken(store.users, Cast(body.userId.value).value) && PlanOf(body.planId.value).None? ==>
              out == Reject(400, InvalidPlanMessage, store)
    ensures out.call.CreateOrder? <==> out.store != store
    ensures out.call.CreateOrder? <==> Purchasable(body, store.users) && !TxnIdTaken(store.txns, freshId)
    ensures out.store != store ==>
              Purchasable(body, store.users)
              && var plan := PlanOf(body.planId.value).value;
              && out.store.txns == store.txns + [TxnDoc(freshId, Cast(body.userId.value).value, plan.name, plan.amount,
                                                        plan.credits, env.defaultPayment, now)]
              && out.call == CreateOrder(OrderRequest(plan.amount * MinorUnits, Currency, ToHex(freshId)))
    ensures out.resp.success <==> out.call.CreateOrder? && createOrder(out.call.request).Created?
    ensures out.resp.success ==> out.resp.body == OrderPlaced(createOrder(out.call.request).order)
    ensures out.call.CreateOrder? && !out.resp.success ==> out.resp == Fail(500, createOrder(out.call.request).message)
  {
    if !Present(body.userId) || !Present(body.planId) then Reject(400, MissingDetailsMessage, store)
    else match Cast(body.userId.value)
      case None => Reject(500, ObjectIdCastError, store)
      case Some(userId) =>
        if UserIndex(store.users, userId).None? then Reject(404, UserNotFoundMessage, store)
        else match PlanOf(body.planId.value)
          case None => Reject(400, InvalidPlanMessage, store)
          case Some(plan) =>
            if TxnIndex(store.txns, freshId).Some? then Reject(500, DuplicateKeyError, store)
            else
              var txn := TxnDoc(freshId, userId, plan.name, plan.amount, plan.credits, env.defaultPayment, now);
              var saved := store.(txns := store.txns + [txn]);
              assert |saved.txns| != |store.txns|;
              var options := OrderRequest(plan.amount * MinorUnits, Currency, ToHex(txn.id));
              match createOrder(options)
              case OrderFailed(message) => Outcome(Fail(500, message), saved, CreateOrder(options))
              case Created(order) => Outcome(Response(200, true, "", OrderPlaced(order)), saved, CreateOrder(options))
  }

  // ---------------------------------------------------------------------------
  // Purchase: settlement (as written)

  const PaidStatus := "paid"
  const NotPaidMessage := "Message Failed"
  const PaymentFailedMessage := "Payment Failed"
  const CreditsAddedMessage := "Credits Added"

  /** The position of the transaction a provider reply names as paid: the reply
      is a fetched order with status "paid" whose receipt casts to a stored
      transaction's id. */
  function PaidTxn(reply: FetchReply, txns: seq<TxnDoc>): (r: Option<nat>)
    ensures r.Some? ==> reply.Fetched? && reply.status == PaidStatus && r.value < |txns|
    ensures r.Some? ==> Cast(reply.receipt) == Some(txns[r.value].id)
    ensures (reply.Fetched? && reply.status == PaidStatus && Cast(reply.receipt).Some?
             && TxnIdTaken(txns, Cast(reply.receipt).value)) ==> r.Some?
  {
    if reply.FetchFailed? || reply.status != PaidStatus then None
    else match Cast(reply.receipt)
      case None => None
      case Some(id) => TxnIndex(txns, id)
  }

  /** `verifyRazorpay`, following the code as written: it grants a
      transaction's credits only when the transaction's `payment` flag is
      ALREADY true, and answers "Payment Failed" when it is false. */
  function VerifyRazorpay(orderId: string, store: Store, fetchOrder: string -> FetchReply): (out: Outcome)
    ensures out.call == FetchOrder(orderId) && out.resp.status == 200
    ensures out.store.txns == store.txns
    ensures !out.resp.success ==> out.store == store
    ensures !(fetchOrder(orderId).Fetched? && fetchOrder(orderId).status == PaidStatus) ==> !out.resp.success
    ensures fetchOrder(orderId).Fetched? && fetchOrder(orderId).status != PaidStatus ==> out.resp == Fail(200, NotPaidMessage)
    ensures PaidTxn(fetchOrder(orderId), store.txns).Some?
              && !store.txns[PaidTxn(fetchOrder(orderId), store.txns).value].payment ==>
              out.resp == Fail(200, PaymentFailedMessage)
    ensures out.resp.success <==>
              PaidTxn(fetchOrder(orderId), store.txns).Some?
              && var txn := store.txns[PaidTxn(fetchOrder(orderId), store.txns).value];
              && txn.payment
              && UserById(store.users, txn.userId).Some?
              && UserById(store.users, txn.userId).value.creditBalance.Number?
    ensures out.resp.success ==>
              var txn := store.txns[PaidTxn(fetchOrder(orderId), store.txns).value];
              var i := UserIndex(store.users, txn.userId).value;
              && out.resp.message == CreditsAddedMessage
              && out.store.users == store.users[i := store.users[i].(creditBalance := AddCredits(store.users[i].creditBalance, txn.credits))]
  {
    var call := FetchOrder(orderId);
    match fetchOrder(orderId)
    case FetchFailed(message) => Outcome(Fail(200, message), store, call)
    case Fetched(status, receipt) =>
      if status != PaidStatus then Outcome(Fail(200, NotPaidMessage), store, call)
      else match Cast(receipt)
        case None => Outcome(Fail(200, ObjectIdCastError), store, call)
        case Some(txnId) =>
          match TxnIndex(store.txns, txnId)
          case None => Outcome(Fail(200, NullPaymentError), store, call)
          case Some(j) =>
            var txn := store.txns[j];
            if !txn.payment then Outcome(Fail(200, PaymentFailedMessage), store, call)
            else match UserIndex(store.users, txn.userId)
              case None => Outcome(Fail(200, NullBalanceError), store, call)
              case Some(i) =>
                var user := store.users[i];
                match AddCredits(user.creditBalance, txn.credits)
                case NotANumber => Outcome(Fail(200, NumberCastError), store, call)
                case Number(total) =>
                  var users := store.users[i := user.(creditBalance := Number(total))];
                  var txns := store.txns[j := txn.(payment := true)];
                  assert txns == store.txns;
                  Outcome(Response(200, true, CreditsAddedMessage, NoBody), Store(users, txns), call)
  }
}
