# Mollie gateway for Craft Commerce: a verified model

This project models the logic of the Mollie payment gateway class of the
Craft Commerce Mollie plugin (`src/gateways/Gateway.php`) and proves
properties of that model. It has three parts.

- **Webhook reconciliation** (`processWebHook`). One delivery runs these steps
  in order:
  - find the parent transaction by its correlation hash;
  - skip if the parent already has a successful purchase child (the
    idempotency guard);
  - fetch the payment from Mollie, and stop if that request was unsuccessful;
  - map the provider's flags to a child status (paid, then expired, then
    cancelled, then a raw `status` of `"failed"`);
  - save at most one child transaction.

  Every path answers `"ok"`. The store is the class
  `Transactions.TransactionStore`, an append-only `seq` of records. The
  handler is `MollieGateway.Gateway.ProcessWebHook`, which `modifies` the
  store. The pure function `Webhook.Reconcile` specifies what one delivery
  does, and the lemmas beside it state the properties.
- **Catalog memoisation** (`fetchPaymentMethods`, `fetchIssuers`). The two
  nullable cache fields are `Option` fields of the `Gateway` class. The
  remote listing is a function given to the constructor, and a ghost counter
  records each remote fetch. The loop that flattens each method's embedded
  issuers into `(id, name, methodId)` triples is `CollectIssuers`. Its
  specification is `Catalog.FlattenIssuers`, with lemmas on count, order and
  membership.
- **Request population** (`populateRequest`, the `billingEmail` addition of
  `createPaymentRequest`, and the API-key getter and setter). The
  request-map changes are stated key by key. They use PHP truthiness, where
  `null`, `""` and `"0"` are all false.

The code differs from a plain "non-empty" reading in several places. This
model follows the code:

- **PHP truthiness.** A form value or email of `"0"` is not copied into the
  request, because PHP treats `"0"` as false.
- **The guard covers only successful purchases.** It counts children with
  status `success` and type `purchase`. So redelivering an expired,
  cancelled or failed webhook saves another failed child each time. A paid
  child whose parent is not a purchase does not trip the guard either
  (`Webhook.RedeliveryAfterSave` proves both directions).
- **Unmapped statuses.** A status that maps to nothing saves nothing. The
  next identical delivery therefore sees the same store and does the same
  thing.
- **Type inheritance holds only for handler-created children.** The
  handler-created child gets its parent's type (`SavedChildFields`). The
  model does not claim this for other children in the store: capture and
  refund children in Commerce do not inherit their parent's type.
- **`fetchIssuers` can cache an empty list.** It sets `_issuers` to `[]`
  before it calls the methods fetch. Two outcomes follow:
  - if the methods are already cached, it returns `[]` without fetching;
  - if the methods fetch throws, `[]` stays cached, and later calls return
    it without fetching.

  `FetchIssuers` states both outcomes.
- **The cache ignores the parameters.** A cache hit returns the memoised
  list whatever parameters are passed.

## Model

| member | source | states |
|---|---|---|
| Transactions.FirstWithHash | src/gateways/Gateway.php:178 | the index found carries the hash and no earlier record does; or no record carries it |
| Transactions.FindByHash | src/gateways/Gateway.php:177-185 | finds nothing exactly when the hash is null or no record carries it; otherwise returns the first record with that hash |
| Transactions.FindByHashAppend | src/gateways/Gateway.php:178 | saving a new record does not change which record an already-resolving hash finds |
| Transactions.CountChildren | src/gateways/Gateway.php:188-192 | the guard's count() of records with that parent, status and type; CountChildrenPositive and CountChildrenAppend state its properties |
| Transactions.CountChildrenPositive | src/gateways/Gateway.php:188-194 | the guard's count is truthy exactly when some record has that parent, status and type |
| Transactions.CountChildrenAppend | src/gateways/Gateway.php:188-192 | saving one record raises the count by one exactly when the record matches the filter |
| Transactions.TransactionStore.Save | src/gateways/Gateway.php:234 | the store gets the next id and appends exactly that record; earlier records are untouched and the store stays well formed |
| Webhook.RawStatus | src/gateways/Gateway.php:223 | the data's `status` field when it is set; MapStatus states how it enters the mapping |
| Webhook.MapStatus | src/gateways/Gateway.php:217-228 | first match wins: success exactly when paid; failed exactly when not paid and expired, cancelled or raw status "failed"; nothing otherwise |
| Webhook.ChildOf | src/gateways/Gateway.php:214-215 | the new child linked to the parent, with the parent's type and order; SavedChildFields states what reaches the store |
| Webhook.Settled | src/gateways/Gateway.php:218-233 | the mapped status and the response's data, transaction id, reference and message copied onto the child; SavedChildFields states them |
| Webhook.Reconcile | src/gateways/Gateway.php:177-236 | each delivery either appends exactly its one saved child or leaves the records unchanged; the hash-missing path is taken exactly when lookup fails |
| Webhook.UnknownHashIsNoOp | src/gateways/Gateway.php:177-185 | an unknown or null hash is acknowledged and the store is unchanged |
| Webhook.ExistingPurchaseIsNoOp | src/gateways/Gateway.php:188-199 | if the parent has a successful purchase child, nothing is saved, whatever the provider would answer |
| Webhook.UnsuccessfulFetchIsNoOp | src/gateways/Gateway.php:205-212 | past the guard, an unsuccessful provider fetch saves nothing |
| Webhook.ChildSavedExactlyWhen | src/gateways/Gateway.php:177-234 | a child is saved if and only if the parent is found, it has no successful purchase child, the fetch succeeded and the status maps |
| Webhook.SavedChildFields | src/gateways/Gateway.php:214-233 | the saved child has the found parent, the parent's type and order, the mapped status, the next id, and the response's data, transaction id, reference and message |
| Webhook.ReconcilePreservesWellFormed | src/gateways/Gateway.php:214-234 | after a delivery, ids are still sequential and every parent precedes its child |
| Webhook.RedeliveryAfterSave | src/gateways/Gateway.php:188-199 | after a saved child, a redelivery is skipped by the guard exactly when the first answer was paid and the parent is a purchase |
| Catalog.WithIssuers | src/gateways/Gateway.php:326 | the request data is the parameters with "include" set to "issuers" and every other key kept |
| Catalog.MapIssuers | src/gateways/Gateway.php:335-339 | one issuer per raw issuer, in the same order, each tagged with the method id |
| Catalog.FlattenIssuers | src/gateways/Gateway.php:330-341 | the issuers the loop accumulates; FlattenCount, FlattenAppend, FlattenStep, FlattenSingle and FlattenMembership state its count, order and contents |
| Catalog.FlattenCount | src/gateways/Gateway.php:328-341 | the flattened list has exactly one entry per embedded issuer |
| Catalog.FlattenAppend | src/gateways/Gateway.php:330-341 | flattening a concatenation concatenates the flattenings, so method order is kept |
| Catalog.FlattenStep | src/gateways/Gateway.php:340 | one more loop iteration appends that method's issuers at the end |
| Catalog.FlattenSingle | src/gateways/Gateway.php:331-340 | a single method contributes exactly its own mapped issuers, or nothing when they are empty |
| Catalog.FlattenMembership | src/gateways/Gateway.php:330-341 | an issuer triple is in the flattened list if and only if some method lists that issuer |
| Requests.PopulateRequest | src/gateways/Gateway.php:102-114 | paymentMethod and issuer are set only from a present form with truthy values; every other key is unchanged |
| Requests.CreatePaymentRequest | src/gateways/Gateway.php:119-129 | billingEmail is set only when the order exists and its email is truthy; every other key is the base request's |
| MollieGateway.Gateway.constructor | src/gateways/Gateway.php:56-66 | the key and both caches start null and no fetch has been made |
| MollieGateway.Gateway.SetApiKey | src/gateways/Gateway.php:84-97 | set then get round trip: the raw getter (`parse` false) returns exactly the key that was set, the parsing getter (default `parse` true) its environment resolution; no other field changes |
| MollieGateway.Gateway.FetchPaymentMethods | src/gateways/Gateway.php:316-346 | a cache hit returns the memoised list with no fetch and no change; a miss fetches once; an error changes no cache; a response caches its methods and rebuilds the issuers when methods are embedded |
| MollieGateway.Gateway.CollectIssuers | src/gateways/Gateway.php:328-341 | the loop leaves the issuers cache equal to the flattening of the embedded methods |
| MollieGateway.Gateway.FetchIssuers | src/gateways/Gateway.php:353-365 | a cache hit has no fetch; with methods cached it returns the empty list with no fetch; otherwise one fetch, after which the issuers are the flattening, or stay the empty list if the fetch throws |
| MollieGateway.Gateway.ProcessWebHook | src/gateways/Gateway.php:173-239 | answers "ok" on every path; the new store and the path are those of Reconcile; the provider is asked once exactly when the lookup and the guard pass |
| MollieGateway.FetchTwice | src/gateways/Gateway.php:318-320 | from an empty cache, a successful first call makes exactly one remote fetch and the second call returns the same list; from a filled cache neither call fetches |

## Left out

- HTTP plumbing is not modelled. The response object and the request's
  `id` body parameter and `commerceTransactionHash` query parameter become
  inputs of `ProcessWebHook`; the `"ok"` answer is its output.
- The Mollie client is not modelled. `createGateway`, the Omnipay gateway
  construction and the version strings are foreign library calls. Mollie's
  `fetchTransaction` and the payment-method listing become functions given
  to the constructor. A function always gives the same answer for the same
  input.
- `App::parseEnv` is a function given to the constructor.
- The library's parsing of responses is not modelled. The provider's
  `isSuccessful`/`isPaid`/`isExpired`/`isCancelled` flags and
  `getPaymentMethods()` arrive as fields of the response.
- The request data is modelled as the parameters plus `include=issuers`. The
  library's own additions to that data are not modelled.
- `completePurchase`, `prepareResponse`, `getSettings` and
  `parent::createPaymentRequest` only delegate to parent classes that are
  not part of this model. The base payment request is an input map.
- Commerce's transaction service is not part of this model.
  - `createTransaction` is modelled only as linking the child to its parent
    and the parent's order.
  - Copying amounts, currency and gateway is not modelled.
  - Commerce's random hash becomes an input.
  - Saving always succeeds. Validation failures, the order's paid-status
    update and store or infrastructure exceptions are not modelled.
- A null correlation hash is assumed to find no transaction. The host's
  `getTransactionByHash` is not part of this model, and it might instead
  reject a null argument with an error.
- Response data is a map from strings to strings. The strict comparison
  `'failed' === status` is therefore modelled for string values only.
- Template rendering and UI are not modelled: `getSettingsHtml`,
  `getPaymentFormHtml` (with its template-mode switch and exception
  fallback), `getPaymentFormModel`, `displayName`, `getPaymentTypeOptions`,
  `rules` and `supportsWebhooks` all have no logic to state.
- Logging (`Craft::warning`) is not modelled. It has no effect on results.
- Concurrent duplicate deliveries are not modelled. Each call is atomic and
  sequential, so the race between the guard's count and the insert is out
  of scope.
