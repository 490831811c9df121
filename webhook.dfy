/** Webhook reconciliation: what one delivery does to the transaction store,
    as a function of the records, the correlation hash and the provider's answer. */
module Webhook {
  import opened Wrappers
  import opened Transactions

  /** The provider's answer to fetchTransaction, as the client library exposes it. */
  datatype ProviderResponse = ProviderResponse(
    successful: bool,
    paid: bool,
    expired: bool,
    cancelled: bool,
    transactionId: Option<string>,
    transactionReference: Option<string>,
    message: Option<string>,
    data: Payload)

  /** The raw `status` field of the response data, when it is set. */
  function RawStatus(data: Payload): Option<string>
  {
    if "status" in data then Some(data["status"]) else None
  }

  /** The status a child gets, first match wins: paid, expired, cancelled,
      a raw status of "failed"; anything else records nothing. */
  function MapStatus(res: ProviderResponse): (status: Option<TransactionStatus>)
    ensures status == Some(Success) <==> res.paid
    ensures status == Some(Failed) <==>
      !res.paid && (res.expired || res.cancelled || RawStatus(res.data) == Some("failed"))
    ensures status.None? <==>
      !res.paid && !res.expired && !res.cancelled && RawStatus(res.data) != Some("failed")
  {
    if res.paid then Some(Success)
    else if res.expired then Some(Failed)
    else if res.cancelled then Some(Failed)
    else if RawStatus(res.data) == Some("failed") then Some(Failed)
    else None
  }

  /** createTransaction(null, parent) followed by copying the parent's type. */
  function ChildOf(parent: Transaction, hash: string): Transaction
  {
    Transaction(0, hash, Some(parent.id), parent.orderId, parent.kind, Pending, None, None, None, map[])
  }

  /** The fields the handler copies from the provider's answer onto the child. */
  function Settled(child: Transaction, status: TransactionStatus, res: ProviderResponse): Transaction
  {
    child.(status := status, response := res.data, code := res.transactionId,
           reference := res.transactionReference, message := res.message)
  }

  /** Which way a delivery went; every way is acknowledged with "ok". */
  datatype Path =
    | HashMissing
    | DuplicatePurchase
    | FetchUnsuccessful
    | StatusUnmapped
    | ChildSaved(child: Transaction)

  datatype Reconciliation = Reconciliation(path: Path, records: seq<Transaction>)

  /** The store after one delivery. `res` is what the provider answers if asked;
      it only matters once the idempotency guard has passed. */
  function Reconcile(records: seq<Transaction>, hash: Option<string>, res: ProviderResponse, childHash: string)
    : (out: Reconciliation)
    ensures out.path.ChildSaved? ==> out.records == records + [out.path.child]
    ensures !out.path.ChildSaved? ==> out.records == records
    ensures out.path.HashMissing? <==> FindByHash(records, hash).None?
  {
    match FindByHash(records, hash)
    case None => Reconciliation(HashMissing, records)
    case Some(parent) =>
      if CountChildren(records, parent.id, Success, Purchase) > 0 then
        Reconciliation(DuplicatePurchase, records)
      else if !res.successful then
        Reconciliation(FetchUnsuccessful, records)
      else
        match MapStatus(res)
        case None => Reconciliation(StatusUnmapped, records)
        case Some(status) =>
          var child := Settled(ChildOf(parent, childHash), status, res).(id := |records| + 1);
          Reconciliation(ChildSaved(child), records + [child])
  }

  /** An unknown (or absent) hash is acknowledged and changes nothing. */
  lemma UnknownHashIsNoOp(records: seq<Transaction>, hash: Option<string>, res: ProviderResponse, childHash: string)
    requires hash.None? || forall j :: 0 <= j < |records| ==> records[j].hash != hash.value
    ensures Reconcile(records, hash, res, childHash) == Reconciliation(HashMissing, records)
  {
  }

  /** Once the parent has a successful purchase child, a delivery changes
      nothing, whatever the provider would answer. */
  lemma ExistingPurchaseIsNoOp(
    records: seq<Transaction>, hash: Option<string>, res: ProviderResponse, childHash: string, i: nat)
    requires FindByHash(records, hash).Some?
    requires i < |records| && IsChildWith(records[i], FindByHash(records, hash).value.id, Success, Purchase)
    ensures Reconcile(records, hash, res, childHash) == Reconciliation(DuplicatePurchase, records)
  {
    CountChildrenPositive(records, FindByHash(records, hash).value.id, Success, Purchase);
  }

  /** An unsuccessful provider fetch changes nothing. */
  lemma UnsuccessfulFetchIsNoOp(records: seq<Transaction>, hash: Option<string>, res: ProviderResponse, childHash: string)
    requires FindByHash(records, hash).Some?
    requires forall j :: 0 <= j < |records| ==>
      !IsChildWith(records[j], FindByHash(records, hash).value.id, Success, Purchase)
    requires !res.successful
    ensures Reconcile(records, hash, res, childHash) == Reconciliation(FetchUnsuccessful, records)
  {
    CountChildrenPositive(records, FindByHash(records, hash).value.id, Success, Purchase);
  }

  /** A child is saved exactly when the parent is found, it has no successful
      purchase child yet, the fetch succeeded and the status maps. */
  lemma ChildSavedExactlyWhen(records: seq<Transaction>, hash: Option<string>, res: ProviderResponse, childHash: string)
    ensures Reconcile(records, hash, res, childHash).path.ChildSaved? <==>
      FindByHash(records, hash).Some? &&
      (forall j :: 0 <= j < |records| ==>
         !IsChildWith(records[j], FindByHash(records, hash).value.id, Success, Purchase)) &&
      res.successful && MapStatus(res).Some?
  {
    if FindByHash(records, hash).Some? {
      CountChildrenPositive(records, FindByHash(records, hash).value.id, Success, Purchase);
    }
  }

  /** A saved child points at the found parent, has its type and order, the
      mapped status, the next id, and the provider's data, id, reference and message. */
  lemma SavedChildFields(records: seq<Transaction>, hash: Option<string>, res: ProviderResponse, childHash: string)
    requires Reconcile(records, hash, res, childHash).path.ChildSaved?
    ensures FindByHash(records, hash).Some?
    ensures
      var parent := FindByHash(records, hash).value;
      var child := Reconcile(records, hash, res, childHash).path.child;
      && child.parentId == Some(parent.id)
      && child.kind == parent.kind
      && child.orderId == parent.orderId
      && Some(child.status) == MapStatus(res)
      && child.id == |records| + 1
      && child.hash == childHash
      && child.response == res.data
      && child.code == res.transactionId
      && child.reference == res.transactionReference
      && child.message == res.message
  {
  }

  /** A delivery keeps the store well formed: the new id is the next one and
      the child's parent is an earlier record. */
  lemma ReconcilePreservesWellFormed(
    records: seq<Transaction>, hash: Option<string>, res: ProviderResponse, childHash: string)
    requires WellFormed(records)
    ensures WellFormed(Reconcile(records, hash, res, childHash).records)
  {
  }

  /** Redelivering the webhook after a child was saved is skipped by the guard
      exactly when that child was a paid purchase: failed children and children
      of non-purchase parents do not count toward the guard. */
  lemma RedeliveryAfterSave(
    records: seq<Transaction>, hash: Option<string>, res: ProviderResponse, childHash: string,
    res': ProviderResponse, childHash': string)
    requires Reconcile(records, hash, res, childHash).path.ChildSaved?
    ensures FindByHash(records, hash).Some?
    ensures
      var after := Reconcile(records, hash, res, childHash).records;
      Reconcile(after, hash, res', childHash').path.DuplicatePurchase? <==>
        res.paid && FindByHash(records, hash).value.kind == Purchase
  {
  }
}
