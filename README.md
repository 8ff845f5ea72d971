# Pimcore e-commerce framework: payments, session carts, environment, index service and tracking

This project models, in Dafny, the request-level core of the Pimcore
e-commerce framework bundle and proves what that core promises.

- **Wirecard Seamless adapter** (`WirecardSeamless`):
  - the order-ident encoding (`~` becomes `---`);
  - the request fingerprint (seed and order string, with and without the secret and the order);
  - the callback verification (order list, the secret slot, counting of the mandatory fields);
  - the mapping of callbacks to AUTHORIZED and CANCELLED;
  - the invoice and PayPal basket fields of the redirect request, and the confirm-URL separator;
  - the deposit and reversal results.
- **PayPal Express Checkout adapter** (`PayPal`):
  - the live or sandbox endpoint;
  - the required keys of `initPayment` and `handleResponse`;
  - the authorized data;
  - the Ack-to-status mapping of `executeDebit`;
  - the joining of error messages.
- **Session cart** (`SessionCart`):
  - the `carts` attribute of the session bag;
  - id assignment on `save`, and `delete` of a saved cart;
  - the load-once cache of `getAllCartsForUser`/`getById`;
  - sorting of items;
  - `__sleep` property filtering and `__wakeup` back-references.
- **Environment** (`ShopEnvironment`):
  - the custom items, the user id, the guest-cart flag and the tenants of a request;
  - their save to and load from the session bag;
  - `clearEnvironment`;
  - the persistent and transient checkout tenant.
- **Index service** (`IndexService`):
  - tenant-worker registration and resolution, with the default-worker fallback;
  - the attribute getters and their deprecated aliases;
  - the fan-out of index updates to every worker.
- **Tracking** (`Tracking`, `TrackingManager`, `EnhancedEcommerce`):
  - the base tracker's null filter and view-script name;
  - the manager's registry and capability-based dispatch;
  - the once-only checkout-complete guard;
  - the Google Analytics enhanced e-commerce tracker's once-only dependency code and payload shaping.

Shared modules:
- `PhpArray` models PHP ordered arrays as sequences of key/value pairs with unique keys.
- `PhpString` models `explode`, `implode`, `trim`, `%d` formatting and PHP's falsy strings.
- `PaymentStatus` models the status record.
- `Wrappers` holds `Option` and `Result`.

Exceptions are modelled as the `Err` case of a `Result`. Hashing, gateway
replies, SOAP calls, `urlencode`, `uniqid`, serialization and template
rendering are function-typed parameters or inputs. Emitted analytics code
and calls made to workers and trackers are recorded in append-only log
fields.

Where the code and the design description differ, the model follows the code, except where noted:
- **Fresh session.** `Environment::loadFromSession` reads the user id with no default, so a session without one loads `null`. `hasCurrentUserId` then answers true. It answers false only when the constructor runs under the CLI, where the sentinel `-1` stays. See `ShopEnvironment.LoadWithoutUser`.
- **Wirecard errors.** A callback that reports errors is CANCELLED on both branches of `handleResponse`.
- **Mandatory fields.** The mandatory-field counter counts every occurrence in the order list. A name repeated three times therefore also reaches 3. `WirecardSeamless.MandatoryHitsDistinct` shows that without repeats the count is the number of distinct mandatory names present.
- **Index service environment.** `IndexService` never assigns its `environment` field, so as written every lookup without a tenant raises an `Error`; the model takes the environment's assortment tenant as a parameter instead (see Left out).
- **Falsy tenant names.** A tenant named `"0"` or `""` is falsy. `IndexService` resolves it to the default worker.
- **Integer-like tenant names.** Under strict types, a tenant name such as `"12"` becomes an integer array key. The constructor's `registerTenantWorker(string ...)` then throws a type error.
- **Typos kept.** The source's own spellings stay: `affilation` in the transaction payload, `Tacker` and `insance` in the tracking manager's messages, and `priceCalcuator` among the blocked cart properties.

## Model

| member | source | states |
|---|---|---|
| WirecardSeamless.EncodeOrderIdent | pimcore/lib/Pimcore/Bundle/EcommerceFrameworkBundle/PaymentManager/Payment/WirecardSeamless.php:677-680 | the encoded ident has no `~`, and an ident without `~` is unchanged |
| WirecardSeamless.DecodeOrderIdent | pimcore/lib/Pimcore/Bundle/EcommerceFrameworkBundle/PaymentManager/Payment/WirecardSeamless.php:682-685 | decoding never lengthens the ident; that no `---` survives decoding is `DecodedHasNoDelimiter`, and that it undoes `EncodeOrderIdent` is `DecodeEncode` |
| WirecardSeamless.DecodedHasNoDelimiter | pimcore/lib/Pimcore/Bundle/EcommerceFrameworkBundle/PaymentManager/Payment/WirecardSeamless.php:682-685 | a decoded ident never contains `---` |
| WirecardSeamless.DecodeEncode | pimcore/lib/Pimcore/Bundle/EcommerceFrameworkBundle/PaymentManager/Payment/WirecardSeamless.php:677-685 | decoding the encoding of an ident without `-` gives the ident back |
| WirecardSeamless.DashBreaksRoundTrip | pimcore/lib/Pimcore/Bundle/EcommerceFrameworkBundle/PaymentManager/Payment/WirecardSeamless.php:677-685 | with a `-` next to a `~` the round trip fails: `-~` encodes to `----`, which decodes to `~-` |
| WirecardSeamless.CalculateFingerprint | pimcore/lib/Pimcore/Bundle/EcommerceFrameworkBundle/PaymentManager/Payment/WirecardSeamless.php:690-702 | HMAC-SHA-512 keyed with the secret for `hmac_sha512`, plain SHA-512 otherwise |
| WirecardSeamless.KeyListImplode | pimcore/lib/Pimcore/Bundle/EcommerceFrameworkBundle/PaymentManager/Payment/WirecardSeamless.php:704-730 | the order string's key list is the field names joined with commas, in insertion order |
| WirecardSeamless.Adapter.GenerateFingerprint | pimcore/lib/Pimcore/Bundle/EcommerceFrameworkBundle/PaymentManager/Payment/WirecardSeamless.php:704-730 | the seed is the values in order, then the secret unless ignored, then the order string when it is requested; a pair comes back when it is requested |
| WirecardSeamless.Adapter.constructor | pimcore/lib/Pimcore/Bundle/EcommerceFrameworkBundle/PaymentManager/Payment/WirecardSeamless.php:64-80 | keeps the settings of the configured mode; no callback data and no data-storage id are stored yet |
| WirecardSeamless.SignedRequestCarriesOrder | pimcore/lib/Pimcore/Bundle/EcommerceFrameworkBundle/PaymentManager/Payment/WirecardSeamless.php:704-730 | a signed request carries the fingerprint, and its order string splits into every field name, then `secret` and `requestFingerprintOrder` |
| WirecardSeamless.Adapter.VerifyResponse | pimcore/lib/Pimcore/Bundle/EcommerceFrameworkBundle/PaymentManager/Payment/WirecardSeamless.php:404-441 | the loop over the order list computes exactly the verification predicate: fingerprint equal, 3 mandatory hits, `secret` used |
| WirecardSeamless.HonestCallbackVerified | pimcore/lib/Pimcore/Bundle/EcommerceFrameworkBundle/PaymentManager/Payment/WirecardSeamless.php:404-441 | a callback signed the way the gateway signs passes verification |
| WirecardSeamless.MandatoryHitsDistinct | pimcore/lib/Pimcore/Bundle/EcommerceFrameworkBundle/PaymentManager/Payment/WirecardSeamless.php:414-422 | without repeated names, the mandatory hits are the number of distinct mandatory names with non-empty values |
| WirecardSeamless.AllThreePresent | pimcore/lib/Pimcore/Bundle/EcommerceFrameworkBundle/PaymentManager/Payment/WirecardSeamless.php:414-422 | the three mandatory names present with values make three distinct hits |
| WirecardSeamless.CleanResponse | pimcore/lib/Pimcore/Bundle/EcommerceFrameworkBundle/PaymentManager/Payment/WirecardSeamless.php:364-366 | none of the routing parameters survives the clean-up |
| WirecardSeamless.CleanKeepsStatusFields | pimcore/lib/Pimcore/Bundle/EcommerceFrameworkBundle/PaymentManager/Payment/WirecardSeamless.php:364-366 | the clean-up keeps the errors, state, order number and both fingerprint fields |
| WirecardSeamless.AuthorizedDataOf | pimcore/lib/Pimcore/Bundle/EcommerceFrameworkBundle/PaymentManager/Payment/WirecardSeamless.php:330-339 | authorized data holds only the six listed names, with the response's values; a prepayment's state reads SUCCESS |
| WirecardSeamless.HandleResponseResult | pimcore/lib/Pimcore/Bundle/EcommerceFrameworkBundle/PaymentManager/Payment/WirecardSeamless.php:325-464 | PREPAYMENT is AUTHORIZED; errors, PENDING or CANCEL give CANCELLED; otherwise an exception exactly when the required fields are missing or verification fails; AUTHORIZED exactly when the order number is set and the state is SUCCESS; a price that cannot be built from `amount` and `currency` is not modelled (see Left out) |
| WirecardSeamless.MissingFingerprintRejected | pimcore/lib/Pimcore/Bundle/EcommerceFrameworkBundle/PaymentManager/Payment/WirecardSeamless.php:371-402 | a non-prepayment, non-cancel callback without a fingerprint field raises the missing-fields message that lists them |
| WirecardSeamless.HonestSuccessAuthorized | pimcore/lib/Pimcore/Bundle/EcommerceFrameworkBundle/PaymentManager/Payment/WirecardSeamless.php:341-464 | an honestly signed SUCCESS callback is AUTHORIZED |
| WirecardSeamless.Adapter.HandleResponse | pimcore/lib/Pimcore/Bundle/EcommerceFrameworkBundle/PaymentManager/Payment/WirecardSeamless.php:325-464 | returns the status mapping, and stores the authorized data before verification, so a rejected callback also replaces it |
| WirecardSeamless.Adapter.GetAuthorizedData | pimcore/lib/Pimcore/Bundle/EcommerceFrameworkBundle/PaymentManager/Payment/WirecardSeamless.php:469-472 | answers the stored data |
| WirecardSeamless.Adapter.SetAuthorizedData | pimcore/lib/Pimcore/Bundle/EcommerceFrameworkBundle/PaymentManager/Payment/WirecardSeamless.php:477-480 | replaces the stored data and nothing else |
| WirecardSeamless.BasketLine | pimcore/lib/Pimcore/Bundle/EcommerceFrameworkBundle/PaymentManager/Payment/WirecardSeamless.php:264-316 | one basket line has at most one field per suffix and per value |
| WirecardSeamless.Adapter.AddPaypalFields | pimcore/lib/Pimcore/Bundle/EcommerceFrameworkBundle/PaymentManager/Payment/WirecardSeamless.php:264-316 | the two counter loops produce the basket fields plus the `basketItems` count |
| WirecardSeamless.Adapter.MergeBasketLines | pimcore/lib/Pimcore/Bundle/EcommerceFrameworkBundle/PaymentManager/Payment/WirecardSeamless.php:270-313 | each loop step merges the next numbered line and bumps the counter |
| WirecardSeamless.PaypalFieldsOfMerged | pimcore/lib/Pimcore/Bundle/EcommerceFrameworkBundle/PaymentManager/Payment/WirecardSeamless.php:264-316 | after the loops, writing counter minus one completes the fields |
| WirecardSeamless.PaypalItem | pimcore/lib/Pimcore/Bundle/EcommerceFrameworkBundle/PaymentManager/Payment/WirecardSeamless.php:270-290 | item n's seven fields sit under `basketItem<n><suffix>` with the item's values, its name doubling as description |
| WirecardSeamless.PaypalModification | pimcore/lib/Pimcore/Bundle/EcommerceFrameworkBundle/PaymentManager/Payment/WirecardSeamless.php:293-312 | price modifications are numbered after the items, with quantity 1 |
| WirecardSeamless.PaypalCountAndOthers | pimcore/lib/Pimcore/Bundle/EcommerceFrameworkBundle/PaymentManager/Payment/WirecardSeamless.php:313 | `basketItems` is the number of lines, and fields that are not basket fields are untouched |
| WirecardSeamless.ConfirmUrl | pimcore/lib/Pimcore/Bundle/EcommerceFrameworkBundle/PaymentManager/Payment/WirecardSeamless.php:159-165 | the confirm URL is the base URL, one separator, then `orderIdent=` and the encoded ident |
| WirecardSeamless.ConfirmUrlSeparator | pimcore/lib/Pimcore/Bundle/EcommerceFrameworkBundle/PaymentManager/Payment/WirecardSeamless.php:159-165 | the separator is `?` when the base has none and `&` otherwise, so the URL has exactly one `?` more than a base without one |
| WirecardSeamless.PayolutionFields | pimcore/lib/Pimcore/Bundle/EcommerceFrameworkBundle/PaymentManager/Payment/WirecardSeamless.php:228-252 | an invoice without a complete birthday raises `no birthday passed` |
| WirecardSeamless.RedirectFields | pimcore/lib/Pimcore/Bundle/EcommerceFrameworkBundle/PaymentManager/Payment/WirecardSeamless.php:146-226 | the redirect request fails exactly without a cart or for an invoice without a birthday |
| WirecardSeamless.RedirectCarriesBasket | pimcore/lib/Pimcore/Bundle/EcommerceFrameworkBundle/PaymentManager/Payment/WirecardSeamless.php:146-226 | for PayPal with item level on, the request carries every item's basket fields and the count |
| WirecardSeamless.RedirectUrlResult | pimcore/lib/Pimcore/Bundle/EcommerceFrameworkBundle/PaymentManager/Payment/WirecardSeamless.php:146-226 | a success is a truthy redirect URL; the field errors pass through, and any other failure is the evaluation message |
| WirecardSeamless.Adapter.GetInitPaymentRedirectUrl | pimcore/lib/Pimcore/Bundle/EcommerceFrameworkBundle/PaymentManager/Payment/WirecardSeamless.php:146-226 | answers the redirect result for the stored data-storage id |
| WirecardSeamless.InitPaymentSignature | pimcore/lib/Pimcore/Bundle/EcommerceFrameworkBundle/PaymentManager/Payment/WirecardSeamless.php:99-144 | the init request is signed over its fields and the secret, and the iframe stylesheet URL is added unsigned afterwards |
| WirecardSeamless.Adapter.InitPayment | pimcore/lib/Pimcore/Bundle/EcommerceFrameworkBundle/PaymentManager/Payment/WirecardSeamless.php:99-144 | a falsy order ident throws; otherwise the storage id is stored from the reply and the view data returned |
| WirecardSeamless.BackendPost | pimcore/lib/Pimcore/Bundle/EcommerceFrameworkBundle/PaymentManager/Payment/WirecardSeamless.php:509-524 | backend requests are signed with the secret among the fields, and the secret is removed before posting |
| WirecardSeamless.DepositResult | pimcore/lib/Pimcore/Bundle/EcommerceFrameworkBundle/PaymentManager/Payment/WirecardSeamless.php:507-547 | CANCELLED with the reply data exactly when the reply has errors, otherwise CLEARED with the deposit message |
| WirecardSeamless.Adapter.Deposit | pimcore/lib/Pimcore/Bundle/EcommerceFrameworkBundle/PaymentManager/Payment/WirecardSeamless.php:507-547 | answers the deposit result for the gateway's reply to the signed request |
| WirecardSeamless.ReversalResult | pimcore/lib/Pimcore/Bundle/EcommerceFrameworkBundle/PaymentManager/Payment/WirecardSeamless.php:572-614 | a prepayment is CANCELLED; otherwise the result is `false` exactly when the reply has errors, and CANCELLED otherwise |
| WirecardSeamless.PrepaymentReversalOffline | pimcore/lib/Pimcore/Bundle/EcommerceFrameworkBundle/PaymentManager/Payment/WirecardSeamless.php:574-582 | the prepayment reversal does not depend on the gateway |
| WirecardSeamless.Adapter.ApproveReversal | pimcore/lib/Pimcore/Bundle/EcommerceFrameworkBundle/PaymentManager/Payment/WirecardSeamless.php:572-614 | answers the reversal result |
| WirecardSeamless.NotImplemented | pimcore/lib/Pimcore/Bundle/EcommerceFrameworkBundle/PaymentManager/Payment/WirecardSeamless.php:492-495 | `executeDebit` and `executeCredit` always throw |
| PayPal.EndpointUrlPart | pimcore/lib/Pimcore/Bundle/EcommerceFrameworkBundle/PaymentManager/Payment/PayPal.php:60-64 | mode `live` selects `paypal`, every other mode `sandbox.paypal` |
| PayPal.Adapter.constructor | pimcore/lib/Pimcore/Bundle/EcommerceFrameworkBundle/PaymentManager/Payment/PayPal.php:56-81 | WSDL and location URLs on the selected host; credentials of the mode, or none |
| PayPal.CreatePaymentDetails | pimcore/lib/Pimcore/Bundle/EcommerceFrameworkBundle/PaymentManager/Payment/PayPal.php:283-290 | the order total is the price's amount and the currency id its currency |
| PayPal.Adapter.GetName | pimcore/lib/Pimcore/Bundle/EcommerceFrameworkBundle/PaymentManager/Payment/PayPal.php:86-89 | the name is `PayPal` |
| PayPal.InitPaymentResult | pimcore/lib/Pimcore/Bundle/EcommerceFrameworkBundle/PaymentManager/Payment/PayPal.php:103-154 | throws listing the missing keys exactly when one of the four required keys is absent; otherwise the pay URL with the token on success, and the joined messages on failure |
| PayPal.InitRequiredCount | pimcore/lib/Pimcore/Bundle/EcommerceFrameworkBundle/PaymentManager/Payment/PayPal.php:106-117 | the count check is equivalent to no required key missing |
| PayPal.OptionalConfigUnchanged | pimcore/lib/Pimcore/Bundle/EcommerceFrameworkBundle/PaymentManager/Payment/PayPal.php:113-135 | after filtering, the optional-config loop sets nothing beyond the details already built |
| PayPal.Adapter.InitPayment | pimcore/lib/Pimcore/Bundle/EcommerceFrameworkBundle/PaymentManager/Payment/PayPal.php:103-154 | answers the init result |
| PayPal.Adapter.AddOptionalConfig | pimcore/lib/Pimcore/Bundle/EcommerceFrameworkBundle/PaymentManager/Payment/PayPal.php:133-135 | every config entry is written into the request details |
| PayPal.Adapter.HandleResponse | pimcore/lib/Pimcore/Bundle/EcommerceFrameworkBundle/PaymentManager/Payment/PayPal.php:165-199 | missing keys throw and keep the old data; otherwise the data becomes the token/PayerID subset and the debit status is referenced by InvoiceID |
| PayPal.AuthorizedDataOfResponse | pimcore/lib/Pimcore/Bundle/EcommerceFrameworkBundle/PaymentManager/Payment/PayPal.php:176-180 | the stored data is exactly the token and PayerID entries of the response |
| PayPal.ResponseValues | pimcore/lib/Pimcore/Bundle/EcommerceFrameworkBundle/PaymentManager/Payment/PayPal.php:168-198 | the amount and currency read after the check are the response's |
| PayPal.Adapter.GetAuthorizedData | pimcore/lib/Pimcore/Bundle/EcommerceFrameworkBundle/PaymentManager/Payment/PayPal.php:204-207 | answers the stored data |
| PayPal.Adapter.SetAuthorizedData | pimcore/lib/Pimcore/Bundle/EcommerceFrameworkBundle/PaymentManager/Payment/PayPal.php:212-215 | replaces the stored data |
| PayPal.DebitStatus | pimcore/lib/Pimcore/Bundle/EcommerceFrameworkBundle/PaymentManager/Payment/PayPal.php:235-265 | `Success`/`SuccessWithWarning` give COMMITTED with the TransactionID; anything else gives ABORTED with the CorrelationID and the joined long messages |
| PayPal.Adapter.ExecuteDebit | pimcore/lib/Pimcore/Bundle/EcommerceFrameworkBundle/PaymentManager/Payment/PayPal.php:220-267 | the debit status for the gateway's reply to the stored token, payer and price |
| PayPal.CollectMessages | pimcore/lib/Pimcore/Bundle/EcommerceFrameworkBundle/PaymentManager/Payment/PayPal.php:144-153 | a single error counts as a list of one, and each long message is followed by a newline |
| PayPal.SplitMessages | pimcore/lib/Pimcore/Bundle/EcommerceFrameworkBundle/PaymentManager/Payment/PayPal.php:144-153 | the joined messages split back into the long messages |
| PayPal.Adapter.ExecuteCredit | pimcore/lib/Pimcore/Bundle/EcommerceFrameworkBundle/PaymentManager/Payment/PayPal.php:272-276 | always throws |
| SessionCart.GetSessionBag | pimcore/lib/Pimcore/Bundle/EcommerceFrameworkBundle/CartManager/SessionCart.php:44-56 | the bag holds a `carts` array afterwards, the old one if it existed |
| SessionCart.SessionCart.Save | pimcore/lib/Pimcore/Bundle/EcommerceFrameworkBundle/CartManager/SessionCart.php:58-70 | an id with the `sesscart_` prefix only if the cart had none; the snapshot is under the id and every other entry is unchanged |
| SessionCart.SessionCart.Delete | pimcore/lib/Pimcore/Bundle/EcommerceFrameworkBundle/CartManager/SessionCart.php:77-93 | an unsaved cart throws and no entry is removed; otherwise the items are cleared, the cart is marked modified and exactly the cart's own entry is removed |
| SessionCart.SessionCart.SortItems | pimcore/lib/Pimcore/Bundle/EcommerceFrameworkBundle/CartManager/SessionCart.php:100-107 | the items end sorted by the comparator and are a permutation of the old items |
| SessionCart.Insert | pimcore/lib/Pimcore/Bundle/EcommerceFrameworkBundle/CartManager/SessionCart.php:100-107 | insertion keeps the items sorted and adds exactly the one item |
| SessionCart.GetAllCartsForUser | pimcore/lib/Pimcore/Bundle/EcommerceFrameworkBundle/CartManager/SessionCart.php:128-140 | the first call fills the cache from the bag, keyed by each cart's id; later calls return the cache whatever the user or later saves |
| SessionCart.LoadCarts | pimcore/lib/Pimcore/Bundle/EcommerceFrameworkBundle/CartManager/SessionCart.php:133-136 | the loop writes each unserialized cart under its own id |
| SessionCart.CacheMatchesBag | pimcore/lib/Pimcore/Bundle/EcommerceFrameworkBundle/CartManager/SessionCart.php:128-140 | when each cart reports the id it is stored under, the cache equals the bag's carts |
| SessionCart.GetById | pimcore/lib/Pimcore/Bundle/EcommerceFrameworkBundle/CartManager/SessionCart.php:114-126 | reads from the filled cache |
| SessionCart.SessionCart.Sleep | pimcore/lib/Pimcore/Bundle/EcommerceFrameworkBundle/CartManager/SessionCart.php:145-159 | the property names without the blocked ones, in their order |
| SessionCart.KeptVarsMembers | pimcore/lib/Pimcore/Bundle/EcommerceFrameworkBundle/CartManager/SessionCart.php:145-159 | a name is kept exactly when it is a property name and not blocked |
| SessionCart.KeptVarsIdempotent | pimcore/lib/Pimcore/Bundle/EcommerceFrameworkBundle/CartManager/SessionCart.php:145-159 | filtering twice equals filtering once |
| SessionCart.SessionCart.Wakeup | pimcore/lib/Pimcore/Bundle/EcommerceFrameworkBundle/CartManager/SessionCart.php:164-181 | every item and sub-item points back at the cart, the cart is marked modified and read-only protection is restored |
| ShopEnvironment.Environment.constructor | pimcore/lib/Pimcore/Bundle/EcommerceFrameworkBundle/Environment.php:93-104 | default currency EUR unless configured; state loaded from the bag, or initial under the CLI |
| ShopEnvironment.LoadState | pimcore/lib/Pimcore/Bundle/EcommerceFrameworkBundle/Environment.php:118-137 | both checkout tenants load from the same key, and a missing user id loads as null |
| ShopEnvironment.SaveAttributes | pimcore/lib/Pimcore/Bundle/EcommerceFrameworkBundle/Environment.php:139-152 | save writes the six session keys and leaves every other attribute alone |
| ShopEnvironment.SaveThenLoad | pimcore/lib/Pimcore/Bundle/EcommerceFrameworkBundle/Environment.php:133-151 | save then load gives back the state, with the transient tenant replaced by the persistent one |
| ShopEnvironment.LoadWithoutUser | pimcore/lib/Pimcore/Bundle/EcommerceFrameworkBundle/Environment.php:118-137 | an empty bag loads a null user id, for which `hasCurrentUserId` is true |
| ShopEnvironment.Environment.LoadFromSession | pimcore/lib/Pimcore/Bundle/EcommerceFrameworkBundle/Environment.php:118-137 | a CLI no-op, otherwise the loaded state |
| ShopEnvironment.Environment.Save | pimcore/lib/Pimcore/Bundle/EcommerceFrameworkBundle/Environment.php:139-152 | a CLI no-op, otherwise the saved attributes |
| ShopEnvironment.Environment.GetCustomItem | pimcore/lib/Pimcore/Bundle/EcommerceFrameworkBundle/Environment.php:159-162 | the value under the key, null when absent |
| ShopEnvironment.Environment.GetAllCustomItems | pimcore/lib/Pimcore/Bundle/EcommerceFrameworkBundle/Environment.php:154-157 | the custom items when they are an array; otherwise the `TypeError` of the declared `array` return type, as after `clearEnvironment` |
| ShopEnvironment.Environment.SetCustomItem | pimcore/lib/Pimcore/Bundle/EcommerceFrameworkBundle/Environment.php:164-167 | when the custom items are an array, null or false, afterwards the key reads the new value; any other scalar stays unchanged; every other key reads as before |
| ShopEnvironment.Environment.RemoveCustomItem | pimcore/lib/Pimcore/Bundle/EcommerceFrameworkBundle/Environment.php:186-189 | afterwards the key reads null and every other key reads as before |
| ShopEnvironment.Environment.SetCurrentUserId | pimcore/lib/Pimcore/Bundle/EcommerceFrameworkBundle/Environment.php:174-179 | stores the integer cast of the argument |
| ShopEnvironment.Environment.GetCurrentUserId | pimcore/lib/Pimcore/Bundle/EcommerceFrameworkBundle/Environment.php:169-172 | answers the stored user id, null included |
| ShopEnvironment.IntCastOfDecimal | pimcore/lib/Pimcore/Bundle/EcommerceFrameworkBundle/Environment.php:174-179 | the integer cast of a decimal string, with or without a minus sign, is its value |
| ShopEnvironment.LeadingDigits | pimcore/lib/Pimcore/Bundle/EcommerceFrameworkBundle/Environment.php:174-179 | the digits the integer cast reads are the longest digit prefix |
| ShopEnvironment.Environment.HasCurrentUserId | pimcore/lib/Pimcore/Bundle/EcommerceFrameworkBundle/Environment.php:181-184 | true exactly when the user id is not the sentinel -1 |
| ShopEnvironment.Environment.ClearEnvironment | pimcore/lib/Pimcore/Bundle/EcommerceFrameworkBundle/Environment.php:191-219 | removes the six session keys, nulls items, user id and tenants, and sets guest cart to false |
| ShopEnvironment.Environment.SetUseGuestCart | pimcore/lib/Pimcore/Bundle/EcommerceFrameworkBundle/Environment.php:292-295 | changes only the guest-cart flag |
| ShopEnvironment.Environment.SetCurrentAssortmentTenant | pimcore/lib/Pimcore/Bundle/EcommerceFrameworkBundle/Environment.php:302-305 | changes only the assortment tenant |
| ShopEnvironment.Environment.GetCurrentAssortmentTenant | pimcore/lib/Pimcore/Bundle/EcommerceFrameworkBundle/Environment.php:312-315 | answers the assortment tenant last set or loaded |
| ShopEnvironment.Environment.SetCurrentAssortmentSubTenant | pimcore/lib/Pimcore/Bundle/EcommerceFrameworkBundle/Environment.php:324-327 | changes only the assortment sub-tenant |
| ShopEnvironment.Environment.GetCurrentAssortmentSubTenant | pimcore/lib/Pimcore/Bundle/EcommerceFrameworkBundle/Environment.php:334-337 | answers the assortment sub-tenant last set or loaded |
| ShopEnvironment.Environment.SetCurrentCheckoutTenant | pimcore/lib/Pimcore/Bundle/EcommerceFrameworkBundle/Environment.php:347-357 | a tenant loosely equal to the persistent one changes nothing; otherwise the transient tenant is set, the persistent one only when asked, and the factory is reset once |
| ShopEnvironment.Environment.GetCurrentCheckoutTenant | pimcore/lib/Pimcore/Bundle/EcommerceFrameworkBundle/Environment.php:364-367 | answers the transient tenant |
| ShopEnvironment.LooseEqualsSymmetric | pimcore/lib/Pimcore/Bundle/EcommerceFrameworkBundle/Environment.php:349 | PHP's loose `!=` used by the tenant check is symmetric |
| ShopEnvironment.LooseEqualsExamples | pimcore/lib/Pimcore/Bundle/EcommerceFrameworkBundle/Environment.php:349 | null equals `""` and `"7"` equals `"07"` under loose comparison |
| IndexService.IndexService.Create | pimcore/lib/Pimcore/Bundle/EcommerceFrameworkBundle/IndexService/IndexService.php:46-53 | every supplied worker is registered under its tenant name; an integer-like name is a type error |
| IndexService.IndexService.Init | pimcore/lib/Pimcore/Bundle/EcommerceFrameworkBundle/IndexService/IndexService.php:46-48 | the start of construction: the default worker is stored, with no tenant worker registered and no call made |
| IndexService.IndexService.RegisterTenantWorker | pimcore/lib/Pimcore/Bundle/EcommerceFrameworkBundle/IndexService/IndexService.php:55-58 | writes the worker under the tenant name |
| IndexService.TenantWorker | pimcore/lib/Pimcore/Bundle/EcommerceFrameworkBundle/IndexService/IndexService.php:94-101 | the registered worker, or WorkerNotFound with the tenant in the message exactly when none is registered |
| IndexService.ResolveTenantWorker | pimcore/lib/Pimcore/Bundle/EcommerceFrameworkBundle/IndexService/IndexService.php:320-339 | a truthy tenant must be registered or WorkerNotFound; a falsy one gives the default worker or DefaultWorkerNotFound |
| IndexService.ResolveRegistered | pimcore/lib/Pimcore/Bundle/EcommerceFrameworkBundle/IndexService/IndexService.php:320-339 | a registered, truthy tenant resolves to its worker |
| IndexService.ResolveFalsyTenant | pimcore/lib/Pimcore/Bundle/EcommerceFrameworkBundle/IndexService/IndexService.php:320-339 | `""` and `"0"` resolve to the default worker |
| IndexService.AskWorker | pimcore/lib/Pimcore/Bundle/EcommerceFrameworkBundle/IndexService/IndexService.php:124-264 | a missing default worker gives the empty list, and WorkerNotFound propagates |
| IndexService.NoWorkerEmptyAnswer | pimcore/lib/Pimcore/Bundle/EcommerceFrameworkBundle/IndexService/IndexService.php:124-133 | assuming an environment is supplied (the source never assigns one): with no default and no tenant, every getter answers the empty list |
| IndexService.IndexService.GetTenantWorker | pimcore/lib/Pimcore/Bundle/EcommerceFrameworkBundle/IndexService/IndexService.php:94-101 | answers the tenant lookup |
| IndexService.IndexService.GetCurrentTenantWorker | pimcore/lib/Pimcore/Bundle/EcommerceFrameworkBundle/IndexService/IndexService.php:293-296 | assuming an environment is supplied (the source never assigns one): resolves the environment's assortment tenant |
| IndexService.IndexService.GetProductListWorker | pimcore/lib/Pimcore/Bundle/EcommerceFrameworkBundle/IndexService/IndexService.php:305-310 | resolves the given tenant |
| IndexService.IndexService.GetGeneralSearchAttributes | pimcore/lib/Pimcore/Bundle/EcommerceFrameworkBundle/IndexService/IndexService.php:124-133 | asks the resolved worker for its general-search attributes |
| IndexService.IndexService.GetGeneralSearchColumns | pimcore/lib/Pimcore/Bundle/EcommerceFrameworkBundle/IndexService/IndexService.php:110-113 | the deprecated alias answers the same |
| IndexService.IndexService.GetIndexAttributes | pimcore/lib/Pimcore/Bundle/EcommerceFrameworkBundle/IndexService/IndexService.php:199-208 | asks the resolved worker for its index attributes |
| IndexService.IndexService.GetIndexColumns | pimcore/lib/Pimcore/Bundle/EcommerceFrameworkBundle/IndexService/IndexService.php:220-223 | the deprecated alias answers the same |
| IndexService.IndexService.GetAllFilterGroups | pimcore/lib/Pimcore/Bundle/EcommerceFrameworkBundle/IndexService/IndexService.php:234-243 | asks the resolved worker for its filter groups |
| IndexService.IndexService.GetIndexAttributesByFilterGroup | pimcore/lib/Pimcore/Bundle/EcommerceFrameworkBundle/IndexService/IndexService.php:255-264 | asks the resolved worker for the group's attributes |
| IndexService.IndexService.GetIndexColumnsByFilterGroup | pimcore/lib/Pimcore/Bundle/EcommerceFrameworkBundle/IndexService/IndexService.php:276-279 | the deprecated alias answers the same |
| IndexService.Recipients | pimcore/lib/Pimcore/Bundle/EcommerceFrameworkBundle/IndexService/IndexService.php:146-187 | the default worker, if any, first, then every tenant worker in registration order |
| IndexService.CalledOnce | pimcore/lib/Pimcore/Bundle/EcommerceFrameworkBundle/IndexService/IndexService.php:146-187 | each tenant worker gets exactly one call per broadcast |
| IndexService.IndexService.Broadcast | pimcore/lib/Pimcore/Bundle/EcommerceFrameworkBundle/IndexService/IndexService.php:146-187 | appends one call per recipient, in order, and changes no registration |
| IndexService.IndexService.CreateOrUpdateIndexStructures | pimcore/lib/Pimcore/Bundle/EcommerceFrameworkBundle/IndexService/IndexService.php:146-155 | broadcasts the structure update |
| IndexService.IndexService.CreateOrUpdateTable | pimcore/lib/Pimcore/Bundle/EcommerceFrameworkBundle/IndexService/IndexService.php:138-141 | the deprecated alias broadcasts the same |
| IndexService.IndexService.DeleteFromIndex | pimcore/lib/Pimcore/Bundle/EcommerceFrameworkBundle/IndexService/IndexService.php:162-171 | broadcasts the deletion of the object |
| IndexService.IndexService.UpdateIndex | pimcore/lib/Pimcore/Bundle/EcommerceFrameworkBundle/IndexService/IndexService.php:178-187 | broadcasts the update of the object |
| Tracking.Tracker.constructor | pimcore/lib/Pimcore/Bundle/EcommerceFrameworkBundle/Tracking/Tracker.php:35-39 | keeps the item builder and view-script prefix |
| Tracking.Tracker.GetTrackingItemBuilder | pimcore/lib/Pimcore/Bundle/EcommerceFrameworkBundle/Tracking/Tracker.php:41-44 | answers the builder given to the constructor |
| Tracking.Tracker.GetViewScript | pimcore/lib/Pimcore/Bundle/EcommerceFrameworkBundle/Tracking/Tracker.php:48-55 | `PimcoreEcommerceFrameworkBundle:Tracking/<prefix>:<name>.js.php` |
| Tracking.ViewScriptParts | pimcore/lib/Pimcore/Bundle/EcommerceFrameworkBundle/Tracking/Tracker.php:48-55 | a view-script name determines the prefix and name it was made from, when the prefix has no colon |
| Tracking.NonNullEntries | pimcore/lib/Pimcore/Bundle/EcommerceFrameworkBundle/Tracking/Tracker.php:65-76 | an entry is kept exactly when its value is not null or its key is protected; no entry is invented |
| Tracking.Tracker.FilterNullValues | pimcore/lib/Pimcore/Bundle/EcommerceFrameworkBundle/Tracking/Tracker.php:65-76 | the loop copies exactly the kept entries in their order |
| Tracking.NonNullEntriesAppend | pimcore/lib/Pimcore/Bundle/EcommerceFrameworkBundle/Tracking/Tracker.php:67-73 | kept entries keep their relative order |
| Tracking.NonNullEntriesIdempotent | pimcore/lib/Pimcore/Bundle/EcommerceFrameworkBundle/Tracking/Tracker.php:65-76 | filtering twice equals filtering once |
| Tracking.NoNullsWithoutProtection | pimcore/lib/Pimcore/Bundle/EcommerceFrameworkBundle/Tracking/Tracker.php:65-76 | with no protected keys no null value is left |
| Tracking.NonNullEntriesUnique | pimcore/lib/Pimcore/Bundle/EcommerceFrameworkBundle/Tracking/Tracker.php:65-76 | unique keys stay unique |
| TrackingManager.ItemBuilderFor | pimcore/lib/Pimcore/Bundle/EcommerceFrameworkBundle/Tracking/TrackingManager.php:111-126 | no class gives the default builder; an unknown class is an invalid configuration |
| TrackingManager.CheckEntry | pimcore/lib/Pimcore/Bundle/EcommerceFrameworkBundle/Tracking/TrackingManager.php:85-100 | an unknown class, an unknown builder or a class that is not a tracker is an invalid configuration |
| TrackingManager.TrackingManager.Create | pimcore/lib/Pimcore/Bundle/EcommerceFrameworkBundle/Tracking/TrackingManager.php:69-76 | every configured tracker is registered under its name, in order, with the capabilities and item builder its entry's checks give, or the first bad entry's error |
| TrackingManager.TrackingManager.Empty | pimcore/lib/Pimcore/Bundle/EcommerceFrameworkBundle/Tracking/TrackingManager.php:56-60 | the manager before its configuration is processed: no tracker and no call |
| TrackingManager.TrackingManager.ProcessConfigEntry | pimcore/lib/Pimcore/Bundle/EcommerceFrameworkBundle/Tracking/TrackingManager.php:85-100 | registers the entry's tracker when its check passes |
| TrackingManager.TrackingManager.RegisterTracker | pimcore/lib/Pimcore/Bundle/EcommerceFrameworkBundle/Tracking/TrackingManager.php:136-145 | a used name throws and leaves the registry unchanged; otherwise the tracker is appended and the manager returned |
| TrackingManager.TrackingManager.GetTrackers | pimcore/lib/Pimcore/Bundle/EcommerceFrameworkBundle/Tracking/TrackingManager.php:152-155 | answers the registry |
| TrackingManager.TrackingManager.EnsureDependencies | pimcore/lib/Pimcore/Bundle/EcommerceFrameworkBundle/Tracking/TrackingManager.php:161-168 | asks every registered tracker, in order, to include its dependencies |
| TrackingManager.Capable | pimcore/lib/Pimcore/Bundle/EcommerceFrameworkBundle/Tracking/TrackingManager.php:177-259 | the trackers with the capability, and only registered ones |
| TrackingManager.TrackingManager.Dispatch | pimcore/lib/Pimcore/Bundle/EcommerceFrameworkBundle/Tracking/TrackingManager.php:177-259 | one call per capable tracker, in registration order |
| TrackingManager.TrackingManager.Track | pimcore/lib/Pimcore/Bundle/EcommerceFrameworkBundle/Tracking/TrackingManager.php:177-259 | dependencies first, then the dispatch |
| TrackingManager.DispatchReachesCapable | pimcore/lib/Pimcore/Bundle/EcommerceFrameworkBundle/Tracking/TrackingManager.php:177-306 | a tracker receives the event exactly when it is registered and has the capability |
| TrackingManager.TrackingManager.TrackProductImpression | pimcore/lib/Pimcore/Bundle/EcommerceFrameworkBundle/Tracking/TrackingManager.php:177-192 | dependencies, then dispatch to impression trackers |
| TrackingManager.TrackingManager.TrackProductView | pimcore/lib/Pimcore/Bundle/EcommerceFrameworkBundle/Tracking/TrackingManager.php:194-211 | dependencies, then dispatch to product-view trackers |
| TrackingManager.TrackingManager.TrackProductActionAdd | pimcore/lib/Pimcore/Bundle/EcommerceFrameworkBundle/Tracking/TrackingManager.php:213-230 | dependencies, then dispatch to add trackers |
| TrackingManager.TrackingManager.TrackProductActionRemove | pimcore/lib/Pimcore/Bundle/EcommerceFrameworkBundle/Tracking/TrackingManager.php:232-248 | dependencies, then dispatch to remove trackers |
| TrackingManager.TrackingManager.TrackCheckout | pimcore/lib/Pimcore/Bundle/EcommerceFrameworkBundle/Tracking/TrackingManager.php:250-266 | dependencies, then dispatch to checkout trackers |
| TrackingManager.TrackingManager.TrackCheckoutStep | pimcore/lib/Pimcore/Bundle/EcommerceFrameworkBundle/Tracking/TrackingManager.php:297-306 | dependencies, then dispatch to checkout-step trackers |
| TrackingManager.TrackingManager.TrackCheckoutComplete | pimcore/lib/Pimcore/Bundle/EcommerceFrameworkBundle/Tracking/TrackingManager.php:268-285 | a tracked order changes nothing; otherwise it is flagged and saved once before the dispatch, so it is dispatched at most once |
| EnhancedEcommerce.DependencySnippets | pimcore/lib/Pimcore/Bundle/EcommerceFrameworkBundle/Tracking/Tracker/Analytics/EnhancedEcommerce.php:307-320 | at most one dependency snippet, and one exactly when not yet included and the list is not empty |
| EnhancedEcommerce.EnhancedEcommerce.EnsureDependencies | pimcore/lib/Pimcore/Bundle/EcommerceFrameworkBundle/Tracking/Tracker/Analytics/EnhancedEcommerce.php:307-320 | emits the dependency code at most once per instance and sets the flag |
| EnhancedEcommerce.EnhancedEcommerce.constructor | pimcore/lib/Pimcore/Bundle/EcommerceFrameworkBundle/Tracking/Tracker/Analytics/EnhancedEcommerce.php:51-56 | the dependency list is `['ec']`, nothing is included or emitted yet, and `Valid()` holds |
| EnhancedEcommerce.IncludedOnce | pimcore/lib/Pimcore/Bundle/EcommerceFrameworkBundle/Tracking/Tracker/Analytics/EnhancedEcommerce.php:307-320 | once included, the code holds exactly one dependency snippet, whatever follows |
| EnhancedEcommerce.EnhancedEcommerce.TrackProductView | pimcore/lib/Pimcore/Bundle/EcommerceFrameworkBundle/Tracking/Tracker/Analytics/EnhancedEcommerce.php:68-82 | dependencies before its own code |
| EnhancedEcommerce.ProductViewData | pimcore/lib/Pimcore/Bundle/EcommerceFrameworkBundle/Tracking/Tracker/Analytics/EnhancedEcommerce.php:74-77 | the view payload has no price and no quantity, and otherwise is the action payload |
| EnhancedEcommerce.EnhancedEcommerce.TrackProductImpression | pimcore/lib/Pimcore/Bundle/EcommerceFrameworkBundle/Tracking/Tracker/Analytics/EnhancedEcommerce.php:89-100 | dependencies before its own code |
| EnhancedEcommerce.EnhancedEcommerce.TrackProductActionAdd | pimcore/lib/Pimcore/Bundle/EcommerceFrameworkBundle/Tracking/Tracker/Analytics/EnhancedEcommerce.php:108-119 | dependencies, then the `add` action |
| EnhancedEcommerce.EnhancedEcommerce.TrackProductActionRemove | pimcore/lib/Pimcore/Bundle/EcommerceFrameworkBundle/Tracking/Tracker/Analytics/EnhancedEcommerce.php:121-126 | dependencies, then the `remove` action |
| EnhancedEcommerce.EnhancedEcommerce.ActionSnippet | pimcore/lib/Pimcore/Bundle/EcommerceFrameworkBundle/Tracking/Tracker/Analytics/EnhancedEcommerce.php:133-144 | the action name and the product data with the given quantity |
| EnhancedEcommerce.EnhancedEcommerce.TrackProductAction | pimcore/lib/Pimcore/Bundle/EcommerceFrameworkBundle/Tracking/Tracker/Analytics/EnhancedEcommerce.php:133-144 | emits the action snippet |
| EnhancedEcommerce.QuantityOf | pimcore/lib/Pimcore/Bundle/EcommerceFrameworkBundle/Tracking/Tracker/Analytics/EnhancedEcommerce.php:279 | a falsy quantity becomes 1 and a truthy one is kept |
| EnhancedEcommerce.TransformProductAction | pimcore/lib/Pimcore/Bundle/EcommerceFrameworkBundle/Tracking/Tracker/Analytics/EnhancedEcommerce.php:271-284 | the fields without null values; price rounded to cents; quantity defaulted |
| EnhancedEcommerce.ActionQuantity | pimcore/lib/Pimcore/Bundle/EcommerceFrameworkBundle/Tracking/Tracker/Analytics/EnhancedEcommerce.php:271-284 | the payload carries the given quantity, or 1 when it is falsy |
| EnhancedEcommerce.TransformProductImpression | pimcore/lib/Pimcore/Bundle/EcommerceFrameworkBundle/Tracking/Tracker/Analytics/EnhancedEcommerce.php:293-305 | the fields without null values; price rounded to cents |
| EnhancedEcommerce.Round2 | pimcore/lib/Pimcore/Bundle/EcommerceFrameworkBundle/Tracking/Tracker/Analytics/EnhancedEcommerce.php:277 | two-decimal rounding stays within half a cent, lands on whole cents, and moves an exact half cent away from zero |
| EnhancedEcommerce.TransformTransaction | pimcore/lib/Pimcore/Bundle/EcommerceFrameworkBundle/Tracking/Tracker/Analytics/EnhancedEcommerce.php:243-252 | the five transaction keys in order; the id passes through; the affiliation is kept when truthy and is `""` otherwise; revenue, tax and shipping are the total, tax and shipping each to a whole cent within half a cent, an exact half cent going away from zero |
| EnhancedEcommerce.CheckoutCalls | pimcore/lib/Pimcore/Bundle/EcommerceFrameworkBundle/Tracking/Tracker/Analytics/EnhancedEcommerce.php:254-262 | one call per item, in order |
| EnhancedEcommerce.EnhancedEcommerce.BuildCheckoutCalls | pimcore/lib/Pimcore/Bundle/EcommerceFrameworkBundle/Tracking/Tracker/Analytics/EnhancedEcommerce.php:254-262 | the loop builds the checkout calls |
| EnhancedEcommerce.EnhancedEcommerce.BuildCheckoutCompleteCalls | pimcore/lib/Pimcore/Bundle/EcommerceFrameworkBundle/Tracking/Tracker/Analytics/EnhancedEcommerce.php:224-232 | one call per item; the transaction has no effect |
| EnhancedEcommerce.EnhancedEcommerce.TrackCheckout | pimcore/lib/Pimcore/Bundle/EcommerceFrameworkBundle/Tracking/Tracker/Analytics/EnhancedEcommerce.php:151-165 | dependencies before its own code |
| EnhancedEcommerce.CheckoutStepActionData | pimcore/lib/Pimcore/Bundle/EcommerceFrameworkBundle/Tracking/Tracker/Analytics/EnhancedEcommerce.php:177-190 | action data exactly when the step or the option is non-null, with the step first and the option only when non-null |
| EnhancedEcommerce.EnhancedEcommerce.TrackCheckoutStep | pimcore/lib/Pimcore/Bundle/EcommerceFrameworkBundle/Tracking/Tracker/Analytics/EnhancedEcommerce.php:173-195 | dependencies before its own code |
| EnhancedEcommerce.EnhancedEcommerce.TrackCheckoutComplete | pimcore/lib/Pimcore/Bundle/EcommerceFrameworkBundle/Tracking/Tracker/Analytics/EnhancedEcommerce.php:202-216 | dependencies before its own code |

## Left out

- Network and gateway I/O (curl, `parse_str`, the PayPal SOAP client and header) are not modelled. Gateway replies are function parameters applied to the request the adapter builds.
- SHA-512 and HMAC-SHA-512 are function parameters; only the choice between them is modelled.
- WirecardSeamless.HandleResponseResult, WirecardSeamless.Adapter.HandleResponse and PayPal.Adapter.HandleResponse: building the price (`new Price(Decimal::create($amount), new Currency($currency))`) is assumed to succeed; the exception raised for a missing or non-numeric amount or an invalid currency is not modelled. In the Wirecard callback `amount` and `currency` are not among the checked fields, so they can be missing even after verification passes.
- SessionCart.SessionCart.SortItems: the items are a plain sequence, so the keys that `uasort` keeps with each item are not modelled; only the order and the items themselves are.
- EnhancedEcommerce.EnhancedEcommerce.EnsureDependencies: the class implements `ITracker` without an `includeDependencies` method, so as written PHP refuses to load it; the model describes the class as if that method existed.
- Floating-point `round()` on Wirecard and PayPal amounts is not modelled: amounts arrive as their string forms. The analytics prices are rounded on exact reals, half away from zero.
- `serialize`, `unserialize`, `uniqid`, `urlencode`, `json_decode`, `extractSeamlessResponse`, `createCartByOrderIdent` and `computeFingerprint`'s template rendering are abstract or left out.
- `class_exists` and dynamic instantiation become a map from class names to what the class is.
- Template rendering and `Analytics::addAdditionalCode` become an append-only log of snippets.
- The trackers' item builders are left out; the builders' outputs (product actions, impressions, transactions) are inputs.
- `$_SERVER`, `$_SESSION`, `$_REQUEST` and the website URL are inputs.
- `Factory::resetInstance` is recorded only as a counter of resets; `getSystemLocale` and `getDefaultCurrency`'s currency object are left out (the configured code is kept).
- The session-bag access of `Environment` is a map of attributes; the deprecated `setCurrentTenant` family (`Environment.php:230-271`) forwards to the assortment setters and getters and is not modelled separately.
- ShopEnvironment.IntCast: PHP numeric strings with leading whitespace, exponents or fractions, and integer overflow, are not modelled.
- ShopEnvironment.LooseEquals: a string counts as numeric only when it is an optional `-` followed by digits, so numeric strings with a `+` sign, a fraction, an exponent or leading whitespace compare as plain strings (the model has `"1.0" != "1"`, `"+5" != "5"`, `"1e1" != "10"` and `" 12" != 12`, which PHP 7 treats as equal); comparisons of arrays and of non-numeric strings with numbers also follow PHP 7 only approximately.
- SessionCart.SessionCart.Delete: the inherited `clear()` is not part of this model; it is taken to empty the items and call `modified()` (so `isModified` is set), and its read-only check is not modelled because `delete()` sets `ignoreReadonly` first.
- Tracking.NonNullEntries: protected keys are compared strictly; PHP's loose `in_array` can also match integer-like keys.
- IndexService.IndexService.Create: `PHP_INT_MAX` bounds on integer-like keys are not modelled.
- IndexService: the `environment` field is never assigned in the source, so the environment's assortment tenant is a parameter. As written, every call without a tenant (`getCurrentTenantWorker`, `getCurrentTenantConfig`, `getProductListForCurrentTenant`, and each getter called without a tenant) reaches `$this->environment->getCurrentAssortmentTenant()` on null and raises an `Error`, which the getters' `catch` of `DefaultWorkerNotFoundException` does not stop. The model describes the intended wiring with an environment supplied, so `IndexService.NoWorkerEmptyAnswer`, `IndexService.IndexService.GetCurrentTenantWorker` and the tenant-less getters do not capture that `Error`.
- ShopEnvironment.Environment.SetCustomItem: custom items loaded as a string are left unchanged; PHP would write a string offset instead (or, before 7.1, turn an empty string into an array).
- ShopEnvironment.Environment.RemoveCustomItem: custom items stored as a non-array scalar are left unchanged.
- TrackingManager.TrackingManager.EnsureDependencies: the trackers do not implement `includeDependencies`, so the calls are only recorded.
- EnhancedEcommerce.EnhancedEcommerce.BuildCheckoutCompleteCalls: delegates to `BuildCheckoutCalls`, which is what the source's body computes.
- The Symfony dependency-injection extension, the test kernel and the interfaces with no logic are not part of this model.
- The order-agent, order-manager and pricing implementations are not part of this model.
