# Imagify credit ledger — a Dafny model

This project models the server side of Imagify. In Imagify, registered users spend credits to generate images through a text-to-image provider. They buy credits through the Razorpay payment gateway. The model covers:

- the authentication gate (`userAuth`);
- registration and login;
- the balance read;
- the paid image action, which checks the balance, calls the provider and then debits one credit;
- the two-phase purchase: creating a Razorpay order backed by a new transaction, then settling the order once Razorpay reports it paid.

Each controller is a pure function. It takes the request, the store and the answers of the external parties, and returns an `Outcome`. An outcome holds three things: the response envelope (HTTP status, `success`, `message`, payload), the store afterwards, and the outbound provider call the request issued, if any.

Layout:

- `values.dfy` (`Values`): optional values, JavaScript truthiness of a string field, a string's length in UTF-16 code units (`Utf16Length`), and the first match of a collection scan.
- `object_ids.dfy` (`ObjectIds`): ObjectIds, their 24-digit hexadecimal string form, and the cast from a string back to an id. This cast links a Razorpay receipt to its transaction.
- `store.dfy` (`Store`): the user and transaction documents, a tagged balance (`Number(n)` or `NotANumber`), and lookups by email and by id.
- `environment.dfy` (`Environment`): configuration (signing secret, image API key, schema defaults) and the shapes of the oracle answers.
- `envelope.dfy` (`Envelope`): the response envelope, provider calls and outcomes.
- `auth.dfy` (`Auth`), `user_controller.dfy` (`UserController`), `image_controller.dfy` (`ImageController`): one module per source file.
- `server.dfy` (`Server`): the six routes, with the gate in front of the four that need it, and properties of runs of requests.
- `findings.dfy` (`Findings`): corrected versions of two handlers (see "## Findings").

Oracles. The model takes these external parties as function parameters:

- the password hash and compare functions;
- token signing and verification;
- Razorpay order creation and order fetch;
- the text-to-image provider.

Fresh ids, the salt and the clock are inputs of each request. Every property holds whatever these parties answer, unless the property explicitly assumes something about them. For example, `HonestTokens` says a signed id claim verifies back to itself.

A few behaviours the model keeps as written:

- Settlement grants credits only when the transaction's `payment` flag is already true. This is the inverted guard described under "## Findings".
- The purchase handler looks the user up before it checks the plan. An unknown user with an unknown plan therefore gets 404, not 400.
- The image action declines any balance `<= 0`, not only a balance of exactly 0.
- Login with an unknown email answers "Email is required".
- The purchase takes the buyer from the request body's `userId`, not from the user the gate attached.

## Model

| member | source | states |
|---|---|---|
| Values.FirstIndex | server/controllers/usercontroller.js:25 | A `findOne` over a collection in natural order returns the first matching document: the index found matches, no earlier document matches, and there is no result exactly when no document matches. |
| ObjectIds.DecodeEncode | server/controllers/usercontroller.js:207 | Reading back the fixed-width hexadecimal form of a number gives the same number, for every width. |
| ObjectIds.ValueEncode | server/controllers/usercontroller.js:207 | The fixed-width hexadecimal form of a number consists of digits only and reads back as that number. |
| ObjectIds.ToHexDigits | server/controllers/usercontroller.js:207 | The string form of an id is 24 hexadecimal digits, none of them upper-case. |
| ObjectIds.CastToHex | server/controllers/usercontroller.js:207 | The receipt string built from a transaction id (`_id.toString()`) casts back to exactly that id when it is looked up again. |
| ObjectIds.ToHexInjective | server/controllers/usercontroller.js:207 | Two transactions have the same receipt string only if they are the same id. |
| Values.Utf16Length | server/controllers/usercontroller.js:18 | The length JavaScript reports for a string: at least its number of characters and at most twice that, and equal to it exactly when every character lies in the Basic Multilingual Plane. |
| Auth.UserAuth | server/middleware/auth.js:4-30 | No token (absent or empty) gives 401 "No token provided". A token that fails verification, or whose id does not cast, gives 401 "Invalid token". A missing claim or an id not in the store gives 401 "User not found". Every rejection is 401 with `success:false`. The request continues (`next`) exactly when the decoded id names a stored user, and the attached user is the stored record the lookup by that id returns. The gate only reads the store. |
| Auth.IssuedTokenAuthenticates | server/middleware/auth.js:13-25 | With an honest sign/verify pair and unique ids, a token issued for a stored user's id lets the request through and attaches exactly that stored record. |
| UserController.RegisterUser | server/controllers/usercontroller.js:7-66 | A missing name, email or password gives 400 "Missing Details" and leaves the store unchanged. A password shorter than 8 gives 400 and creates no user; its length is counted in UTF-16 code units, as JavaScript's `length` counts it. An email already stored gives 400 "Email is already registered" and leaves the store unchanged. Status 400 occurs exactly when one of these checks fails. Success (201, with a token signed for the new id and the name) occurs exactly when the checks pass, the new id is unused and the secret is set. Any change to the store appends exactly one user, whose password field holds the hash oracle's value for the password and the salt. |
| UserController.AstralPasswordLength | server/controllers/usercontroller.js:18-23 | Four characters outside the Basic Multilingual Plane pass the 8-character check, since each counts as two code units, and three do not. |
| UserController.LoginUser | server/controllers/usercontroller.js:68-106 | Login never changes the store and always answers status 200. An unknown email gives `success:false` "Email is required". A failed password compare gives "Invalid credentials". Login succeeds exactly when the email's user exists, the compare accepts and the secret is set. The token is then signed for that user's id. |
| UserController.UserCredits | server/controllers/usercontroller.js:108-144 | The balance read never changes the store. With no attached user it gives 400. If the attached user's id is no longer stored it gives 404. Otherwise it reports the balance and name stored now, with the user's id string. |
| UserController.PlanOf | server/controllers/usercontroller.js:171-192 | Basic maps to 100 credits for 10, Advanced to 500 for 50, Business to 5000 for 250. Every other plan id has no plan. |
| UserController.PaymentRazorpay | server/controllers/usercontroller.js:151-222 | Purchase initiation never changes a balance. A missing `userId` or `planId` gives 400, an uncastable user id gives 500, an unknown user gives 404 and an unknown plan gives 400 "Invalid Plan". These checks run in that order, and none of these rejections creates a transaction or an order. Exactly when the request is valid and the new transaction id is unused, one transaction is appended (the user, the resolved plan, its credits and amount, the default payment flag, the date), and an order is requested for amount × 100 in "INR" with the new transaction's id string as receipt. The response carries the provider's order, or a 500 with the provider's message. |
| UserController.PaidTxn | server/controllers/usercontroller.js:229-232 | The transaction settlement looks at is the one named by the receipt of an order the provider reports as "paid", and it is found whenever the receipt casts to a stored transaction id. |
| UserController.VerifyRazorpay | server/controllers/usercontroller.js:225-266 | As written, settlement always answers status 200 and never changes the transaction collection. Any status other than "paid" gives `success:false` with no mutation. If the status is "paid" but the transaction's flag is false, the answer is "Payment Failed" with no mutation. Success occurs exactly when the flag is already true and the owning user has a numeric balance. Success adds exactly the transaction's credits to that user's balance and changes nothing else. |
| ImageController.GenerateImage | server/controllers/imagecontroller.js:5-79 | A missing user or prompt gives 400 with no provider call and no change. A non-numeric balance gives 500 "Invalid credit balance detected", and a balance ≤ 0 gives `success:false` "No Credit Balance" carrying the unchanged balance; neither calls the provider. A missing API key gives 500 before any call. The provider is called exactly when all these checks pass. A provider failure gives 500 with the provider's message and no debit. Success, which requires a successful call, debits exactly the stored document of the attached user by one credit. The response's `creditBalance` is the new stored balance and its image is the data URL of the provider's image. Every failure leaves the store unchanged. |
| ImageController.ChargeIsOneCredit | server/controllers/imagecontroller.js:29-70 | When the attached record is the stored one, a success lowers that balance by exactly 1, and the response reports the new stored balance. No other user changes, and a balance that was not negative stays not negative. |
| Server.Handle | server/routes/user.routes.js:7-11 | Credits, purchase and settlement (and the image route) sit behind the gate. A request the gate stops gets the gate's 401 response, reaches no handler, calls no provider and leaves the store unchanged. |
| Server.HandleFrame | server/routes/user.routes.js:7-11 | No request removes or rewrites a stored document's identity, name, email or password hash. The transaction ledger only grows. Only the image route and the settlement route change a balance. |
| Server.HandleKeepsConsistent | server/controllers/imagecontroller.js:29-63 | Every route keeps the ledger consistent: numeric balances stay non-negative, transactions grant non-negative credits and user ids stay unique. This assumes new users start with a non-negative balance. |
| Server.GenerateKeepsConsistent | server/controllers/imagecontroller.js:29-63 | The image route keeps the ledger consistent when the attached user is the stored record: the one debit follows the `> 0` guard. |
| Server.PayRazorKeepsConsistent | server/controllers/usercontroller.js:195-207 | Purchase initiation keeps the ledger consistent: the appended transaction carries a plan's credits. |
| Server.VerifyRazorKeepsConsistent | server/controllers/usercontroller.js:240-244 | Settlement keeps the ledger consistent: it only adds a stored transaction's non-negative credits to a balance. |
| Server.RunKeepsConsistent | server/controllers/imagecontroller.js:29-63 | Over any sequence of requests a balance that starts non-negative stays non-negative, because the debit only follows the > 0 guard and settlement only adds plan credits. |
| Server.RegisterThenLogin | server/controllers/usercontroller.js:33-91 | After a successful registration, logging in with the same email and password succeeds as the new user, given a hash/compare pair that accepts the right password. |
| Server.SecondRegistrationRejected | server/controllers/usercontroller.js:25-31 | Registering an email a second time is rejected with 400 "Email is already registered", and the second attempt changes nothing. |
| Server.LoginThenAuthenticate | server/middleware/auth.js:13-24 | The token a successful login returns passes the gate, which attaches exactly the user who logged in. |
| Server.LastCreditSpentOnce | server/controllers/imagecontroller.js:29-63 | With one credit left, two image requests in a row produce one image and then a "No Credit Balance" decline, and the balance ends at 0. |
| Server.CreditsReadAfterCharge | server/controllers/usercontroller.js:119-130 | After a successful image request, the balance read reports the stored balance, which equals the `creditBalance` of the image response and is one less than before. |
| Server.PaidPurchaseIsNeverCredited | server/controllers/usercontroller.js:195-238 | As written, when new transactions start unpaid, a purchase whose order the provider reports paid is answered "Payment Failed" and the store is unchanged: the buyer never receives the credits. |
| Server.RepeatedSettlementCreditsTwice | server/controllers/usercontroller.js:231-250 | As written, settling an already-flagged transaction twice succeeds both times and adds its credits twice. |
| Findings.VerifyRazorpayIntended | server/controllers/usercontroller.js:231-252 | Corrected settlement changes the store exactly when a paid order's transaction is not yet settled. Such a change adds exactly the transaction's credits to its user and sets the flag. An already settled transaction is acknowledged without a second grant. |
| Findings.IntendedSettlementIsIdempotent | server/controllers/usercontroller.js:233-246 | Repeating corrected settlement on the same order changes nothing further. |
| Findings.IntendedPurchaseRoundTrip | server/controllers/usercontroller.js:195-250 | Initiating a purchase, then settling its paid order with the corrected rule, raises the buyer's balance by exactly the plan's credits and marks the new transaction paid. |
| Findings.RegisterUserFailFast | server/controllers/usercontroller.js:33-57 | Registration that checks the secret before saving leaves the store unchanged on every unsuccessful answer. It succeeds exactly when the request is admissible, the id is unused and the secret is set. |
| Findings.FailFastAgreesWhenConfigured | server/controllers/usercontroller.js:42-57 | When the secret is set, the corrected registration and the registration as written agree on every input. |
| Findings.RegisterWithoutSecretKeepsUser | server/controllers/usercontroller.js:42-47 | As written, registering while the secret is missing answers 500 yet keeps the new account, so a retry is refused as "Email is already registered". |

## Left out

- Logging, the `FormData` construction and the base64 encoding of the image. The image oracle returns the base64 text directly.
- bcrypt and jsonwebtoken internals. Hashing, comparison, signing and verification are oracles, and the secret's value is hidden in them.
- Token expiry. `verify` sees only the token string and is fixed for a whole run, so a token never expires in the model. The registration token is signed with a one-hour expiry (`server/controllers/usercontroller.js:49`) and the login token with none (line 83), but both come from the single `sign` oracle, so the model gives them the same string.
- The Razorpay SDK client and its callback style. Order creation and order fetch are oracles that return an order or an error message.
- Concurrency. The model is sequential. The image handler decides on the snapshot the gate read and debits the stored document, and the two agree when requests run one at a time. `ImageController.ChargeIsOneCredit` states this as a precondition.
- The schema files (`user.model.js`, `transactionModel.js`) are not part of this model. The initial balance and the default payment flag are configuration parameters. Schema validators and casts of values that are not numbers or strings are not modelled.
- Request fields of types other than strings. A missing email or password in a login body is not modelled either, because what a lookup with an `undefined` filter matches depends on the database driver.
- A missing order id in a settlement request: the order id is always a string handed to the fetch oracle.
- Store failures other than a duplicate id and an ObjectId cast error. An unreachable database is not modelled.
- The twelve-byte raw-string form that an ObjectId cast also accepts. Only 24-digit hexadecimal strings are modelled.
- The exact text of errors raised inside libraries (duplicate key, cast errors, reading a property of `null`). Fixed stand-in messages replace them.
- Balances are integers. Fractional JavaScript numbers are not modelled. A NaN or `undefined` balance is the single tag `NotANumber`, which absorbs arithmetic, and the settlement update refuses to store it.
- A `null` balance. JavaScript evaluates `null + credits` to `credits`, so settlement as written would credit such a user. The image action would answer 500 "Invalid credit balance detected", because `typeof null` is not `"number"` (`server/controllers/imagecontroller.js:21`). The model has no `null` balance, because whether one can be stored depends on the schema, which is not part of this model.
- The frontend pages and context.

## Findings

| source | as written | input that shows it | evidently intended | confidence | as-written member | corrected member |
|---|---|---|---|---|---|---|
| server/controllers/usercontroller.js:233 | The settlement answers "Payment Failed" when the transaction's `payment` flag is false, and credits the user only when the flag is already true. | A fresh "Basic" purchase (the flag defaults to false) whose order Razorpay reports "paid": the answer is "Payment Failed" and the balance is unchanged. | Grant the credits when the flag is false, then set it. | high (not executed) | Server.PaidPurchaseIsNeverCredited | Findings.VerifyRazorpayIntended |
| server/controllers/usercontroller.js:233 | A transaction already flagged paid is credited again on every settlement call. | A transaction with `payment == true` and 100 credits, settled twice: the balance rises by 200. | At most one grant per transaction (idempotent settlement). | high (not executed) | Server.RepeatedSettlementCreditsTwice | Findings.VerifyRazorpayIntended |
| server/controllers/usercontroller.js:42-47 | The new user is saved before the `JWT_SECRET` check, so a misconfigured server answers 500 but keeps the account. | An admissible registration with `JWT_SECRET` unset: the answer is 500, one user is stored, and a retry gets "Email is already registered". | Check the configuration before saving, so that a failed registration mutates nothing. | medium (not executed) | Findings.RegisterWithoutSecretKeepsUser | Findings.RegisterUserFailFast |

The handlers in `UserController` and the routes in `Server` keep the behaviour as written. The corrected definitions carry the intended properties: `Findings.IntendedSettlementIsIdempotent`, `Findings.IntendedPurchaseRoundTrip` and `Findings.FailFastAgreesWhenConfigured`.
