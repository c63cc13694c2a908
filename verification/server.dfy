/** The server as a whole: the six routes, the authentication gate in front of
    the four that require it, and properties of runs of requests. */
module Server {
  import opened Values
  import opened ObjectIds
  import opened Store
  import opened Environment
  import opened Envelope
  import opened Auth
  import opened UserController
  import opened ImageController

  /** Configuration and the answers of every external party. */
  datatype World = World(
    env: Env,
    hash: (string, string) -> string,
    compare: (string, string) -> bool,
    sign: string -> string,
    verify: string -> Option<Claims>,
    createOrder: OrderRequest -> OrderReply,
    fetchOrder: string -> FetchReply,
    textToImage: (string, string) -> ImageReply)

  /** One HTTP request, with the per-request inputs the server does not choose
      (fresh salt, database-assigned ids, the clock). */
  datatype Request =
    | Register(body: RegisterBody, salt: string, freshId: ObjectId)
    | Login(login: LoginBody)
    | Credits(token: Option<string>)
    | Generate(token: Option<string>, prompt: Option<string>)
    | PayRazor(token: Option<string>, pay: PayBody, txnId: ObjectId, now: int)
    | VerifyRazor(token: Option<string>, orderId: string)

  /** Routes behind the authentication gate. */
  predicate Gated(req: Request)
  {
    req.Credits? || req.Generate? || req.PayRazor? || req.VerifyRazor?
  }

  /** The gate's verdict for a gated request. */
  function GateFor(w: World, store: Store, req: Request): Gate
    requires Gated(req)
  {
    UserAuth(req.token, store.users, w.env.jwtSecret, w.verify)
  }

  /** The transaction ledger only grows, and no user document is removed or
      has its identity, name, email or password hash changed. */
  predicate AppendOnly(before: Store, after: Store)
  {
    && |before.users| <= |after.users|
    && (forall i :: 0 <= i < |before.users| ==>
          after.users[i] == before.users[i].(creditBalance := after.users[i].creditBalance))
    && |before.txns| <= |after.txns|
    && after.txns[..|before.txns|] == before.txns
  }

  /** A gated request, once the gate has attached `user`. */
  function Dispatch(w: World, store: Store, req: Request, user: UserDoc): Outcome
    requires Gated(req)
  {
    match req
    case Credits(_) => UserCredits(Some(user), store)
    case Generate(_, prompt) => GenerateImage(Some(user), prompt, store, w.env, w.textToImage)
    case PayRazor(_, body, txnId, now) => PaymentRazorpay(body, store, w.env, txnId, now, w.createOrder)
    case VerifyRazor(_, orderId) => VerifyRazorpay(orderId, store, w.fetchOrder)
  }

  /** An open request: registration or login. */
  function Open(w: World, store: Store, req: Request): Outcome
    requires !Gated(req)
  {
    match req
    case Register(body, salt, freshId) => RegisterUser(body, store, w.env, salt, w.hash, freshId, w.sign)
    case Login(body) => LoginUser(body, store, w.env, w.compare, w.sign)
  }

  /** Route one request: registration and login are open, everything else
      passes the gate first, and a request the gate stops reaches no handler. */
  function Handle(w: World, store: Store, req: Request): (out: Outcome)
    ensures Gated(req) && GateFor(w, store, req).Stop? ==>
              out == Outcome(GateFor(w, store, req).resp, store, NoCall) && out.resp.status == 401
  {
    if !Gated(req) then Open(w, store, req)
    else
      var gate := GateFor(w, store, req);
      if gate.Stop? then Outcome(gate.resp, store, NoCall) else Dispatch(w, store, req, gate.user)
  }

  /** Every balance stored before is still there, unchanged. */
  predicate BalancesKept(before: Store, after: Store)
  {
    && |before.users| <= |after.users|
    && forall i :: 0 <= i < |before.users| ==> after.users[i].creditBalance == before.users[i].creditBalance
  }

  lemma OpenFrame(w: World, store: Store, req: Request)
    requires !Gated(req)
    ensures AppendOnly(store, Open(w, store, req).store)
    ensures BalancesKept(store, Open(w, store, req).store)
  {
    var out := Open(w, store, req);
    if out.store != store {
      assert out.store.users[..|store.users|] == store.users;
    }
  }

  lemma DispatchFrame(w: World, store: Store, req: Request, user: UserDoc)
    requires Gated(req)
    ensures AppendOnly(store, Dispatch(w, store, req, user).store)
    ensures req.Credits? || req.PayRazor? ==> BalancesKept(store, Dispatch(w, store, req, user).store)
  {
    var out := Dispatch(w, store, req, user);
    if req.PayRazor? && out.store != store {
      assert out.store.txns[..|store.txns|] == store.txns;
    }
  }

  /** No request deletes or rewrites a document; only the image route and the
      settlement route change a balance. */
  lemma HandleFrame(w: World, store: Store, req: Request)
    ensures AppendOnly(store, Handle(w, store, req).store)
    ensures !req.Generate? && !req.VerifyRazor? ==> BalancesKept(store, Handle(w, store, req).store)
  {
    if !Gated(req) {
      OpenFrame(w, store, req);
    } else if GateFor(w, store, req).Next? {
      DispatchFrame(w, store, req, GateFor(w, store, req).user);
    }
  }

  /** The store after a run of requests, in order. */
  function Run(w: World, store: Store, reqs: seq<Request>): (s: Store)
    decreases |reqs|
  {
    if |reqs| == 0 then store else Run(w, Handle(w, store, reqs[0]).store, reqs[1..])
  }

  /** The ledger invariant: every numeric balance is non-negative, every
      transaction grants a non-negative number of credits, user ids are unique. */
  predicate Consistent(store: Store)
  {
    && (forall i :: 0 <= i < |store.users| ==> NonNegative(store.users[i].creditBalance))
    && (forall j :: 0 <= j < |store.txns| ==> store.txns[j].credits >= 0)
    && UniqueUserIds(store.users)
  }

  lemma OpenKeepsConsistent(w: World, store: Store, req: Request)
    requires !Gated(req)
    requires NonNegative(w.env.defaultBalance)
    requires Consistent(store)
    ensures Consistent(Open(w, store, req).store)
  {
    var out := Open(w, store, req);
    if out.store != store {
      assert out.store.users == store.users + [out.store.users[|store.users|]];
      assert out.store.users[|store.users|].id == req.freshId;
    }
  }

  /** The image route keeps the ledger consistent: its one debit follows the
      `> 0` guard on the record the gate attached. */
  lemma GenerateKeepsConsistent(w: World, store: Store, prompt: Option<string>, user: UserDoc)
    requires Consistent(store)
    requires UserIdTaken(store.users, user.id) && user == store.users[UserIndex(store.users, user.id).value]
    ensures Consistent(GenerateImage(Some(user), prompt, store, w.env, w.textToImage).store)
  {
    ChargeIsOneCredit(user, prompt, store, w.env, w.textToImage, UserIndex(store.users, user.id).value);
  }

  /** Settlement keeps the ledger consistent: it only adds a transaction's
      non-negative credits. */
  lemma VerifyRazorKeepsConsistent(w: World, store: Store, orderId: string)
    requires Consistent(store)
    ensures Consistent(VerifyRazorpay(orderId, store, w.fetchOrder).store)
  {
    var out := VerifyRazorpay(orderId, store, w.fetchOrder);
    if out.resp.success {
      var txn := store.txns[PaidTxn(w.fetchOrder(orderId), store.txns).value];
      assert txn.credits >= 0;
    }
  }

  /** Purchase initiation keeps the ledger consistent: the transaction it
      appends carries a plan's positive credits. */
  lemma PayRazorKeepsConsistent(w: World, store: Store, body: PayBody, txnId: ObjectId, now: int)
    requires Consistent(store)
    ensures Consistent(PaymentRazorpay(body, store, w.env, txnId, now, w.createOrder).store)
  {
    var out := PaymentRazorpay(body, store, w.env, txnId, now, w.createOrder);
    if out.store != store {
      assert out.store.txns[|store.txns|].credits == PlanOf(body.planId.value).value.credits;
    }
  }

  lemma DispatchKeepsConsistent(w: World, store: Store, req: Request, user: UserDoc)
    requires Gated(req)
    requires Consistent(store)
    requires UserIdTaken(store.users, user.id) && user == store.users[UserIndex(store.users, user.id).value]
    ensures Consistent(Dispatch(w, store, req, user).store)
  {
    match req
    case Credits(_) =>
    case Generate(_, prompt) => GenerateKeepsConsistent(w, store, prompt, user);
    case PayRazor(_, body, txnId, now) => PayRazorKeepsConsistent(w, store, body, txnId, now);
    case VerifyRazor(_, orderId) => VerifyRazorKeepsConsistent(w, store, orderId);
  }

  /** Every route keeps the ledger consistent, provided new users start with a
      non-negative balance. */
  lemma HandleKeepsConsistent(w: World, store: Store, req: Request)
    requires NonNegative(w.env.defaultBalance)
    requires Consistent(store)
    ensures Consistent(Handle(w, store, req).store)
  {
    if !Gated(req) {
      OpenKeepsConsistent(w, store, req);
    } else if GateFor(w, store, req).Next? {
      DispatchKeepsConsistent(w, store, req, GateFor(w, store, req).user);
    }
  }

  /** A run of any requests from a consistent store ends in a consistent store:
      in particular no balance ever becomes negative. */
  lemma {:induction false} RunKeepsConsistent(w: World, store: Store, reqs: seq<Request>)
    requires NonNegative(w.env.defaultBalance)
    requires Consistent(store)
    ensures Consistent(Run(w, store, reqs))
    decreases |reqs|
  {
    if |reqs| > 0 {
      HandleKeepsConsistent(w, store, reqs[0]);
      RunKeepsConsistent(w, Handle(w, store, reqs[0]).store, reqs[1..]);
    }
  }

  // ---------------------------------------------------------------------------
  // Round trips across requests

  /** A user who has just registered can log in with the same password (for a
      hash/compare pair that accepts the right password), and is logged in as
      the user just created. */
  lemma RegisterThenLogin(store: Store, env: Env, body: RegisterBody, salt: string, freshId: ObjectId,
                          hash: (string, string) -> string, compare: (string, string) -> bool, sign: string -> string)
    requires RegisterUser(body, store, env, salt, hash, freshId, sign).resp.success
    requires compare(body.password.value, hash(body.password.value, salt))
    ensures var after := RegisterUser(body, store, env, salt, hash, freshId, sign).store;
            LoginUser(LoginBody(body.email.value, body.password.value), after, env, compare, sign).resp
              == Response(200, true, "", Session(sign(ToHex(freshId)), body.name.value))
  {
    var after := RegisterUser(body, store, env, salt, hash, freshId, sign).store;
    var n := |store.users|;
    assert after.users[n].email == body.email.value;
    assert UserIndexByEmail(after.users, body.email.value) == Some(n);
  }

  /** Registering an email a second time is rejected, and the second attempt changes nothing. */
  lemma SecondRegistrationRejected(store: Store, env: Env, first: RegisterBody, second: RegisterBody, salt: string,
                                   id1: ObjectId, id2: ObjectId, hash: (string, string) -> string, sign: string -> string)
    requires RegisterUser(first, store, env, salt, hash, id1, sign).resp.success
    requires Complete(second) && Utf16Length(second.password.value) >= MinPasswordLength
    requires second.email == first.email
    ensures var after := RegisterUser(first, store, env, salt, hash, id1, sign).store;
            RegisterUser(second, after, env, salt, hash, id2, sign) == Reject(400, EmailRegisteredMessage, after)
  {
    var after := RegisterUser(first, store, env, salt, hash, id1, sign).store;
    assert after.users[|store.users|].email == first.email.value;
  }

  /** The token a successful login returns passes the gate, which attaches
      exactly the user who logged in. */
  lemma LoginThenAuthenticate(store: Store, env: Env, body: LoginBody, compare: (string, string) -> bool,
                              sign: string -> string, verify: string -> Option<Claims>)
    requires HonestTokens(sign, verify)
    requires UniqueUserIds(store.users)
    requires LoginUser(body, store, env, compare, sign).resp.success
    ensures var token := LoginUser(body, store, env, compare, sign).resp.body.token;
            UserAuth(Some(token), store.users, env.jwtSecret, verify) == Next(UserByEmail(store.users, body.email).value)
  {
    var i := UserIndexByEmail(store.users, body.email).value;
    IssuedTokenAuthenticates(store.users, i, env.jwtSecret, sign, verify);
  }

  /** With one credit left, two image requests in a row (each with the record
      just read from the store, as the gate supplies it) give one image and one
      "No Credit Balance" decline, and the balance ends at zero. */
  lemma LastCreditSpentOnce(store: Store, env: Env, i: nat, prompt: string, textToImage: (string, string) -> ImageReply)
    requires UniqueUserIds(store.users)
    requires i < |store.users| && store.users[i].creditBalance == Number(1)
    requires prompt != "" && Present(env.clipdropKey)
    requires textToImage(prompt, env.clipdropKey.value).ImageData?
    ensures var first := GenerateImage(Some(store.users[i]), Some(prompt), store, env, textToImage);
            var second := GenerateImage(Some(first.store.users[i]), Some(prompt), first.store, env, textToImage);
            && first.resp.success
            && second.resp == Response(200, false, NoCreditMessage, Declined(Number(0)))
            && second.store == first.store
            && second.store.users[i].creditBalance == Number(0)
  {
    ChargeIsOneCredit(store.users[i], Some(prompt), store, env, textToImage, i);
  }

  /** After a successful image request, reading the balance reports the same
      balance the image response carried: one less than before. */
  lemma CreditsReadAfterCharge(store: Store, env: Env, i: nat, prompt: Option<string>,
                               textToImage: (string, string) -> ImageReply)
    requires UniqueUserIds(store.users)
    requires i < |store.users|
    requires GenerateImage(Some(store.users[i]), prompt, store, env, textToImage).resp.success
    ensures var charged := GenerateImage(Some(store.users[i]), prompt, store, env, textToImage);
            var read := UserCredits(Some(store.users[i]), charged.store);
            && read.resp.success
            && read.resp.body.credits == charged.resp.body.creditBalance
            && read.resp.body.credits == Number(store.users[i].creditBalance.value - 1)
  {
    ChargeIsOneCredit(store.users[i], prompt, store, env, textToImage, i);
    var charged := GenerateImage(Some(store.users[i]), prompt, store, env, textToImage);
    assert UniqueUserIds(charged.store.users) by {
      assert forall k :: 0 <= k < |store.users| ==> charged.store.users[k].id == store.users[k].id;
    }
    UserIndexOfStored(charged.store.users, i);
  }

  // ---------------------------------------------------------------------------
  // The settlement rule as written

  /** A purchase that the payment provider reports paid is never settled when
      new transactions start with `payment == false`: the settlement answers
      "Payment Failed" and the store stays as it was, so no credits arrive. */
  lemma PaidPurchaseIsNeverCredited(store: Store, env: Env, body: PayBody, txnId: ObjectId, now: int,
                                    createOrder: OrderRequest -> OrderReply, orderId: string,
                                    fetchOrder: string -> FetchReply)
    requires !env.defaultPayment
    requires PaymentRazorpay(body, store, env, txnId, now, createOrder).resp.success
    requires fetchOrder(orderId) == Fetched(PaidStatus, ToHex(txnId))
    ensures var after := PaymentRazorpay(body, store, env, txnId, now, createOrder).store;
            VerifyRazorpay(orderId, after, fetchOrder) == Outcome(Fail(200, PaymentFailedMessage), after, FetchOrder(orderId))
  {
    var after := PaymentRazorpay(body, store, env, txnId, now, createOrder).store;
    var n := |store.txns|;
    CastToHex(txnId);
    assert after.txns[n].id == txnId;
    assert TxnIndex(after.txns, txnId) == Some(n);
  }

  /** Settling a transaction whose flag is already true credits its user each
      time it is repeated: two calls add the credits twice. */
  lemma RepeatedSettlementCreditsTwice(store: Store, orderId: string, fetchOrder: string -> FetchReply)
    requires VerifyRazorpay(orderId, store, fetchOrder).resp.success
    ensures var once := VerifyRazorpay(orderId, store, fetchOrder);
            var twice := VerifyRazorpay(orderId, once.store, fetchOrder);
            var txn := store.txns[PaidTxn(fetchOrder(orderId), store.txns).value];
            var i := UserIndex(store.users, txn.userId).value;
            && twice.resp.success
            && twice.store.users[i].creditBalance == Number(store.users[i].creditBalance.value + 2 * txn.credits)
  {
    var once := VerifyRazorpay(orderId, store, fetchOrder);
    var j := PaidTxn(fetchOrder(orderId), store.txns).value;
    var txn := store.txns[j];
    var i := UserIndex(store.users, txn.userId).value;
    assert once.store.users[i].id == store.users[i].id;
    assert UserIndex(once.store.users, txn.userId) == Some(i) by {
      forall k | 0 <= k < i
        ensures once.store.users[k].id != txn.userId
      {
        assert once.store.users[k] == store.users[k];
      }
    }
  }
}
