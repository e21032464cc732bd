# Session, second-factor and catalogue rules of an e-commerce backend

This project models the parts of the e-commerce backend that make decisions:

- **`isAuthenticated`**, the HTTP session validator. It takes the bearer token from the `Authorization` header and verifies it. It admits the request only when the session record cached for the token's user still holds that token. This makes sessions revocable on the server.
- **`socketAuthMiddleware`**, the real-time handshake check. It trusts the token's signature alone.
- **`checkCartMiddleware`**, which lets a buyer's request through only when the buyer has an active cart.
- **`twofaVerifyOtp`**, the seller's second factor. A pending record `code=token`, cached under the seller's email, is consumed by the matching code. The token is then promoted to a session record `user:<id>` with a 24-hour lifetime.
- **`searchAllProducts`** and **`listSingleUserProduct`**, the buyer's catalogue. Search keeps only the products on sale (status `available`, expiry date later than now). The detail view runs a not-found, unavailable, expired check chain and adds the mean review rating.
- **`orderSchema`** and **`orderStatusSchema`**, the request validators for orders.

The implementation files of the middlewares and controllers (`src/middlewares/*`, `src/controllers/*`) are not part of this model. Their behaviour is taken from the tests that exercise them: `test/middlewares.spec.ts`, `test/verifyOtp.test.ts`, `test/newProductDetails.test.ts` and `test/newProductSearch.test.tsx`. The order validator is modelled from its source, `src/validations/orderValidation.ts`.

Layout, one module per file:

| file | module | models |
|---|---|---|
| common.dfy | `Common` | optional values, calls that may throw, JSON values, replies |
| strings.dfy | `Strings` | `String.prototype.split` for a one-character separator, and `join` |
| tokens.dfy | `Tokens` | identities, the abstract token codec, the session key `user:<id>` |
| auth_middleware.dfy | `AuthMiddleware` | `isAuthenticated` as a decision function and as a method on the request |
| socket_middleware.dfy | `SocketMiddleware` | `socketAuthMiddleware` |
| cart_middleware.dfy | `CartMiddleware` | `checkCartMiddleware` |
| otp_verify.dfy | `OtpVerify` | the cache client as a class, and `twofaVerifyOtp` as a method proved against a state-transition function |
| product_model.dfy | `ProductModel` | products and the on-sale rule |
| search_controller.dfy | `SearchController` | `searchAllProducts` |
| product_controller.dfy | `ProductController` | `listSingleUserProduct` |
| order_validation.dfy | `OrderValidation` | `orderSchema`, `orderStatusSchema`, the order statuses |

Modelling choices:

- Collaborators become parameters:
  - the token codec is a pair of functions, `verify` and `decode`;
  - the session cache is a `map<string, string>`;
  - every database lookup and the search service become an `Attempt` value, either resolved or thrown.
- `now` and expiry dates are integers (milliseconds).
- A user id is kept as the text a template string renders it to, so `user:${id}` is plain concatenation.

Behaviour the model reads off the tests:

- A seller's session record is looked up under the email and compared by its part after `=`: record `validOTP=123456` admits bearer `123456` (test/middlewares.spec.ts:302-336). That single test is the only evidence for the seller rule. Its cache stub answers nothing for every other key, so it would also fit a validator that tries `user:<id>` first and falls back to the email. The model takes the simpler reading, email only. The next point and the one after it follow from that reading, not from a test.
- Under that reading any record of the shape `code=token` qualifies, so the pending record that `twofaVerifyOtp` consumes already admits its token before the second factor is checked (`AuthMiddleware.SellerSessionAdmitted`).
- Everybody else's record is `user:<id>`, compared verbatim (test/middlewares.spec.ts:76-133).
- Also under that reading, once `twofaVerifyOtp` has moved a seller's token to `user:<id>` and deleted the email key, the validator refuses that token (`OtpVerify.PromotedSellerSessionRefused`).
- No failure path of `twofaVerifyOtp` changes the cache (test/verifyOtp.test.ts:32-60, 103-114; `OtpVerify.OnlySuccessChangesCache`).

## Model

| member | source | states |
|---|---|---|
| Strings.Split | test/middlewares.spec.ts:262 | `split(sep)` always yields at least one piece, and no piece contains the separator; `JoinSplit` and `SplitJoin` tie it to `join` in both directions |
| Strings.JoinSplit | test/middlewares.spec.ts:262 | joining the pieces of a split with the separator gives back the original string |
| Strings.SplitJoin | test/verifyOtp.test.ts:76 | splitting a join of separator-free pieces gives back exactly those pieces |
| Strings.SplitPair | test/verifyOtp.test.ts:76 | two separator-free strings joined by the separator split back into exactly those two pieces |
| Tokens.SessionKeyInjective | test/middlewares.spec.ts:101 | `user:<id>` keys of two ids are equal exactly when the ids are |
| AuthMiddleware.ReadBearer | test/middlewares.spec.ts:198-300 | the token is the header's second space-separated part; specified by `MissingHeader`, `SpacelessHeaderHasNoToken`, `MalformedHeaderExamples` and `BearerToken` |
| AuthMiddleware.Authenticate | test/middlewares.spec.ts:53-389 | `isAuthenticated` as a decision; specified by `AdmittedOnlyWithLiveSession`, `LiveSessionAdmitted`, `SellerSessionAdmitted`, `StaleSessionRefused`, `RevokedSessionRefused`, `VerifyFailure` and `CacheReadFailure` |
| AuthMiddleware.Exchange.IsAuthenticated | test/middlewares.spec.ts:76-133 | a success on the request sets `req.user` and `res.locals.decoded` and calls `next()` once, with nothing sent; a failure sends the reply, does not call `next` and attaches nothing |
| AuthMiddleware.MissingHeader | test/middlewares.spec.ts:198-210 | without a header the reply is 401 `{message:'Please Login'}`, which differs from the no-token reply |
| AuthMiddleware.SpacelessHeaderHasNoToken | test/middlewares.spec.ts:212-228 | any non-empty header without a space has no token, and the reply is 401 `{message:'no access token found'}` |
| AuthMiddleware.MalformedHeaderExamples | test/middlewares.spec.ts:281-300 | headers `uu` and `Bearer1` both get 401 `{message:'no access token found'}` |
| AuthMiddleware.BearerToken | test/middlewares.spec.ts:253-266 | for `<scheme> <token>` with space-free parts, the token checked is exactly the second part |
| AuthMiddleware.VerifyFailure | test/middlewares.spec.ts:135-157 | a token that fails verification gets 500 `{message:'Internal server down', error:<verifier message>}` and no `next` |
| AuthMiddleware.CacheReadFailure | test/middlewares.spec.ts:135-157 | a verified token whose session-record read throws gets the same catch's 500 `{message:'Internal server down', error:<cache error>}`, whatever the record holds |
| AuthMiddleware.AdmittedOnlyWithLiveSession | test/middlewares.spec.ts:76-105 | an admitted request has a header whose second part is non-empty and verifies; the admitted identity is its decoding; the record under the user's key exists and admits that token |
| AuthMiddleware.LiveSessionAdmitted | test/middlewares.spec.ts:107-133 | conversely, a verified token held verbatim in the non-seller's record `user:<id>` is admitted with the decoded identity |
| AuthMiddleware.SellerSessionAdmitted | test/middlewares.spec.ts:302-336 | conversely for a seller, a verified token that is the part after `=` of the record `code=token` under the seller's email is admitted with the decoded identity |
| AuthMiddleware.StaleSessionRefused | test/middlewares.spec.ts:339-389 | a verified token whose record is missing or does not admit it gets 401 `{message:'Please login again'}` |
| AuthMiddleware.RevokedSessionRefused | test/middlewares.spec.ts:365-389 | deleting an admitted user's record, or overwriting a non-seller's record with another value, makes the same request get 401 `Please login again` |
| AuthMiddleware.SellerSessionByEmail | test/middlewares.spec.ts:302-336 | for a seller, record `validOTP=123456` under the email admits `Bearer 123456` with the decoded identity |
| SocketMiddleware.Decide | test/middlewares.spec.ts:427-485 | every rejection is labelled `Authentication error`; the cause is `No token provided` exactly when the token is absent or empty; the handshake is accepted exactly when the token verifies to a claims object, and the accepted user is that object |
| SocketMiddleware.Connection.Authenticate | test/middlewares.spec.ts:471-485 | `next` is called exactly once: with no argument after `socket.data.user` is set, or with the error and `socket.data.user` untouched |
| SocketMiddleware.FailedVerification | test/middlewares.spec.ts:439-469 | a verification error and a non-object payload both give cause `Failed to authenticate token` |
| SocketMiddleware.RevokedSessionStillConnects | test/middlewares.spec.ts:471-485 | a verified token opens a socket even when the HTTP validator refuses it because no session record is left |
| CartMiddleware.CheckCart | test/middlewares.spec.ts:513-555 | `checkCartMiddleware` as a decision; specified by `NextCalledAtMostOnce` |
| CartMiddleware.NextCalledAtMostOnce | test/middlewares.spec.ts:513-555 | `next` is called at most once: `next()` exactly when a cart is found, no call exactly when there is none, `next(error)` exactly when the query throws |
| OtpVerify.Redis.Get | test/verifyOtp.test.ts:76 | a read returns the value, or null when the key is absent, and throws when the server fails |
| OtpVerify.Redis.Del | test/verifyOtp.test.ts:77 | a delete removes the key and its time-to-live, and nothing else |
| OtpVerify.Redis.SetEx | test/verifyOtp.test.ts:78 | a write stores the value and its time-to-live under the key, and nothing else |
| OtpVerify.VerifyOtp | test/verifyOtp.test.ts:31-114 | one verification as a state transition of the cache; specified by `ReadFailure`, `MissingRecord`, `WrongCodeKeepsRecord`, `RoundTrip`, `OnlySuccessChangesCache` and `SingleUse`, and implemented by `TwofaVerifyOtp` |
| OtpVerify.TwofaVerifyOtp | test/verifyOtp.test.ts:62-101 | the handler's reply, its calls in order, and the cache afterwards are those of the state transition `VerifyOtp` |
| OtpVerify.ReadFailure | test/verifyOtp.test.ts:103-114 | a read that throws gives 500 `{message:'Internal server error'}` after the read alone, with the cache unchanged |
| OtpVerify.MissingRecord | test/verifyOtp.test.ts:32-45 | no pending record gives 404 `{message:'OTP token not found'}`, with nothing deleted or written |
| OtpVerify.WrongCodeKeepsRecord | test/verifyOtp.test.ts:47-60 | a wrong code gives 406 `{message:'Invalid One Time Password'}` after the read alone; the record stays, so a second wrong submission gets the same answer |
| OtpVerify.WrongCodeExample | test/verifyOtp.test.ts:47-60 | record `9876=token123` refuses code `1234` with 406 |
| OtpVerify.RoundTrip | test/verifyOtp.test.ts:76-97 | for record `code=token`, submitting `code` answers 200 with `jwt` equal to `token`; the calls are get(email), del(email), decodeToken(token), setEx(`user:<id>`, 86400, token); the entries afterwards are the old ones without the email key and with the session key holding the token, so the email key is gone unless it is itself `user:<id>`; the session key's TTL is 86400 |
| OtpVerify.SuccessExample | test/verifyOtp.test.ts:62-101 | record `1234=token123` with code `1234` and decoded id `123` gives `{jwt:'token123', message:'Login successful'}` and writes `user:123` with TTL 86400 |
| OtpVerify.OnlySuccessChangesCache | test/verifyOtp.test.ts:47-60 | every reply other than 200 leaves the cache as it was and makes only the read |
| OtpVerify.SingleUse | test/verifyOtp.test.ts:87-90 | after a successful verification, any later submission for the same email gets 404, not 406 |
| OtpVerify.PromotedSessionAdmitted | test/verifyOtp.test.ts:87-97 | for a non-seller, the HTTP validator admits the promoted token against the cache as verification leaves it |
| OtpVerify.PromotedSellerSessionRefused | test/verifyOtp.test.ts:76-97 | for a seller verifying under the own email, the HTTP validator refuses the promoted token with 401 `Please login again` against the cache as verification leaves it |
| SearchController.OnSaleOnly | test/newProductDetails.test.ts:56-71 | the filter keeps no more products than it is given, and every product it keeps is on sale and was given |
| SearchController.OnSaleOnlyKeepsAll | test/newProductDetails.test.ts:56-71 | every product on sale is kept |
| SearchController.OnSaleOnlyConcat | test/newProductSearch.test.tsx:148-163 | the filter keeps order: filtering a concatenation concatenates the filtered parts |
| SearchController.OnSaleOnlyAll | test/newProductSearch.test.tsx:148-163 | when every product is on sale, the filter returns the list unchanged |
| SearchController.OnSaleOnlyEmpty | test/newProductDetails.test.ts:40-54 | the filter returns nothing exactly when no product is on sale |
| SearchController.SearchAllProducts | test/newProductDetails.test.ts:31-80 | `searchAllProducts` as a function of the query, the search service and now; specified by `SearchFailure`, `NothingFound`, `NothingOnSale`, `SearchSuccess`, `AllOnSaleReturned` and `QueryPassedThrough` |
| SearchController.QueryPassedThrough | test/newProductSearch.test.tsx:203-210 | the reply depends on the search service only through its answer for the request's own query |
| SearchController.SearchFailure | test/newProductDetails.test.ts:73-80 | a search service that throws gives 500 `{message:'Internal server error'}` |
| SearchController.NothingFound | test/newProductDetails.test.ts:31-38 | no products found gives 404 `{message:'No products match the search criteria'}` with no `status` field |
| SearchController.NothingOnSale | test/newProductDetails.test.ts:40-54 | products found but none on sale gives 404 `{status:404, message:'No available products match the search criteria'}` |
| SearchController.SearchSuccess | test/newProductDetails.test.ts:56-71 | when a product is on sale the reply is 200 `{status:200, message:'Product(s) retrieved successfully', items}`, where `items` are the on-sale products in service order |
| SearchController.AllOnSaleReturned | test/newProductSearch.test.tsx:148-163 | when every found product is on sale, all are returned, in order, with `Product(s) retrieved successfully` |
| SearchController.MixedNothingOnSale | test/newProductSearch.test.tsx:176-190 | one product unavailable but unexpired and one available but expired give 404 `{status:404, message:'No available products match the search criteria'}` |
| ProductController.ListSingleUserProduct | test/newProductDetails.test.ts:110-188 | `listSingleUserProduct` as a function of the lookup and now; specified by `ChecksInOrder`, `DetailShownIffOnSale` and `ItemExtendsProduct` |
| ProductController.ChecksInOrder | test/newProductDetails.test.ts:110-188 | missing product: 404 `Product not found`; a status other than `available`: 404 `Product is currently unavailable`, whatever the expiry; available but past expiry: 404 `Product has expired`; a lookup that throws: 500 `{status:500, error:'Internal server error'}` |
| ProductController.DetailShownIffOnSale | test/newProductSearch.test.tsx:72-110 | a found product is shown (200) exactly when it is on sale by the same rule the search filter uses |
| ProductController.ItemExtendsProduct | test/newProductSearch.test.tsx:31-58 | a product on sale gets 200 `{status:200, message:'Product details retrieved successfully by buyer', item}` and nothing else in the body; the item is the product's JSON with exactly one key added, `averageRating`; every other field is unchanged, and with reviews it is the mean rating |
| ProductController.MeanExample | test/newProductDetails.test.ts:155-179 | ratings 4 and 5 average 4.5 |
| ProductController.MeanBounds | test/newProductDetails.test.ts:155-179 | the mean of ratings in a range lies in that range |
| OrderValidation.OrderSchemaAccepts | src/validations/orderValidation.ts:6-25 | `orderSchema` as a predicate on the body; specified by `RequiredFields`, `AcceptedPayment`, `UnknownPaymentMethod`, `BadMobileMoneyNumber`, `MobileMoneyNumberForbidden`, `OrderNumberOptional` and `MobileMoneyOrderAccepted` |
| OrderValidation.RequiredFields | src/validations/orderValidation.ts:7-14 | a body lacking any of fullName, phoneNumber, country, streetAddress, town, email, deliveryDate or paymentMethod is refused |
| OrderValidation.AcceptedPayment | src/validations/orderValidation.ts:14-22 | an accepted body has paymentMethod `creditCard` or `mobileMoney`; it has a mobileMoneyNumber exactly when the method is `mobileMoney`, and that number is 10 to 15 digits |
| OrderValidation.UnknownPaymentMethod | src/validations/orderValidation.ts:14 | any other payment method is refused |
| OrderValidation.BadMobileMoneyNumber | src/validations/orderValidation.ts:15-19 | paying by mobile money with a number shorter than 10, longer than 15 or holding a non-digit is refused |
| OrderValidation.MobileMoneyNumberForbidden | src/validations/orderValidation.ts:20 | a body not paying by mobile money that carries a mobileMoneyNumber is refused |
| OrderValidation.OrderNumberOptional | src/validations/orderValidation.ts:23 | removing orderNumber from an accepted body, or adding a non-empty one, keeps it accepted |
| OrderValidation.MobileMoneyOrderAccepted | src/validations/orderValidation.ts:6-25 | a complete mobile-money order with a 10-digit number is accepted when the library's phone, email and date rules accept its values |
| OrderValidation.ParseStatus | src/database/models/orderModel.ts:29-35 | a text reads as a status exactly when it is one of the five values, and the status read has that value |
| OrderValidation.StatusRoundTrip | src/database/models/orderModel.ts:29-35 | every status's value reads back as that status |
| OrderValidation.StatusSchemaAccepts | src/validations/orderValidation.ts:27-29 | `orderStatusSchema` as a predicate on the body; specified by `StatusSchemaMatchesModel` |
| OrderValidation.StatusSchemaMatchesModel | src/validations/orderValidation.ts:27-29 | `orderStatusSchema` accepts exactly `{status}` with a value of the order model's status enum, and accepts every such value |

## Left out

- Token signing and verification (`jsonwebtoken`, the secret from the environment) are abstract functions. The two tests about a missing or invalid `JWT_SECRET` observe only that nothing is sent before an unawaited call finishes, which this model does not capture.
- The tests show that `isAuthenticated` calls `getUserById`. What happens when the user is missing is not shown, so the lookup is not modelled.
- A `decodeToken` call that fails is not modelled either.
- In `twofaVerifyOtp` the cache server is a class with a failure flag: when it fails, every call throws. In `isAuthenticated` a failing cache is a parameter that makes the one read of the session record throw. A server that fails partway through one request is not modelled, so `Del` and `SetEx` require a working server. TTLs are recorded as numbers; expiry and eviction over time are not modelled.
- The `OtpVerify` handler reads a pending record without `=` as having the empty string for its token. The source does not say what happens there.
- A concurrent duplicate OTP submission can pass the code check twice before either deletes the record. This race is not modelled, because each request runs to completion on its own here.
- Express's `req`, `res` and `next`, and the async plumbing, become the `Exchange` and `Connection` classes and decision values.
- `checkCartMiddleware`: the query behind `Cart.findOne` (which buyer, which status) is an input. The tests do not show the body of the 404 reply, so only its status is modelled.
- The Sequelize models and queries behind `Product.findByPk` and `searchProductsService` are inputs.
- Route wiring in `src/routes/cartRoute.ts` and `checkPermission` are plumbing and are not modelled.
- The validator library's `.phoneNumber()`, `.email()` and `Joi.date()` rules are abstract predicates. The error messages of both schemas, and which error is reported first, are not modelled; only acceptance is.
- Ratings are averaged in exact `real` arithmetic, not floating point. With no reviews the model puts `null` in `averageRating`; the tests never show that case.
- The detail view counts a product as expired when its expiry date is not later than now. This is the complement of the search rule; the tests only use dates at least 100 seconds away from now.
- OtpVerify.RoundTrip: also requires the token part to contain no `=`, because `split('=')` stops at the next `=` (tokens in compact JWT form contain none).
- OtpVerify.SingleUse: requires that the email is not itself a `user:<id>` key, because otherwise the session write would recreate the record.
- OtpVerify.PromotedSessionAdmitted: stated for non-sellers only. For a seller the validator reads the email key, which the verification has just deleted; `OtpVerify.PromotedSellerSessionRefused` proves that the token is then refused.
