/** Commerce's transaction records and the store queries the webhook handler
    relies on: lookup by hash, counting matching children, and saving. */
module Transactions {
  import opened Wrappers

  datatype TransactionType = Authorize | Capture | Purchase | Refund

  datatype TransactionStatus = Pending | Redirect | Processing | Success | Failed

  /** A provider payload as stored on a record: string keys to string values. */
  type Payload = map<string, string>

  datatype Transaction = Transaction(
    id: nat,
    hash: string,
    parentId: Option<nat>,
    orderId: Option<nat>,
    kind: TransactionType,
    status: TransactionStatus,
    code: Option<string>,
    reference: Option<string>,
    message: Option<string>,
    response: Payload)

  /** Every record's id is its position plus one (the store's auto-increment key),
      and a parent always precedes its children. */
  predicate WellFormed(records: seq<Transaction>)
  {
    forall i :: 0 <= i < |records| ==>
      records[i].id == i + 1 &&
      (records[i].parentId.Some? ==> 1 <= records[i].parentId.value <= i)
  }

  /** Index of the first record carrying `hash`, or |records| when none does. */
  function FirstWithHash(records: seq<Transaction>, hash: string): (i: nat)
    ensures i <= |records|
    ensures i < |records| ==> records[i].hash == hash
    ensures forall j :: 0 <= j < i ==> records[j].hash != hash
  {
    if records == [] then 0
    else if records[0].hash == hash then 0
    else 1 + FirstWithHash(records[1..], hash)
  }

  /** getTransactionByHash: the first record whose hash equals the given one;
      a `null` hash matches nothing, since every record has a hash. */
  function FindByHash(records: seq<Transaction>, hash: Option<string>): (found: Option<Transaction>)
    ensures found.None? <==>
      hash.None? || forall j :: 0 <= j < |records| ==> records[j].hash != hash.value
    ensures found.Some? ==>
      hash == Some(found.value.hash) &&
      exists i :: 0 <= i < |records| && records[i] == found.value &&
        forall j :: 0 <= j < i ==> records[j].hash != hash.value
  {
    if hash.None? then None
    else
      var i := FirstWithHash(records, hash.value);
      if i < |records| then Some(records[i]) else None
  }

  lemma FirstWithHashAppend(records: seq<Transaction>, t: Transaction, hash: string)
    requires FirstWithHash(records, hash) < |records|
    ensures FirstWithHash(records + [t], hash) == FirstWithHash(records, hash)
  {
    var i := FirstWithHash(records, hash);
    var i' := FirstWithHash(records + [t], hash);
    assert (records + [t])[i] == records[i];
  }

  /** Appending a record never changes which record an already-known hash finds. */
  lemma FindByHashAppend(records: seq<Transaction>, t: Transaction, hash: Option<string>)
    requires FindByHash(records, hash).Some?
    ensures FindByHash(records + [t], hash) == FindByHash(records, hash)
  {
    FirstWithHashAppend(records, t, hash.value);
    var i := FirstWithHash(records, hash.value);
    assert (records + [t])[i] == records[i];
  }

  /** The filter of the idempotency query: parent, status and type all match. */
  predicate IsChildWith(t: Transaction, parentId: nat, status: TransactionStatus, kind: TransactionType)
  {
    t.parentId == Some(parentId) && t.status == status && t.kind == kind
  }

  /** The query's count() of records matching the filter. */
  function CountChildren(records: seq<Transaction>, parentId: nat, status: TransactionStatus, kind: TransactionType): nat
  {
    if records == [] then 0
    else
      CountChildren(records[..|records| - 1], parentId, status, kind) +
      (if IsChildWith(records[|records| - 1], parentId, status, kind) then 1 else 0)
  }

  /** The count is positive exactly when some record matches the filter. */
  lemma {:induction false} CountChildrenPositive(
    records: seq<Transaction>, parentId: nat, status: TransactionStatus, kind: TransactionType)
    ensures CountChildren(records, parentId, status, kind) > 0 <==>
      exists i :: 0 <= i < |records| && IsChildWith(records[i], parentId, status, kind)
  {
    if records != [] {
      var init := records[..|records| - 1];
      CountChildrenPositive(init, parentId, status, kind);
      if exists i :: 0 <= i < |init| && IsChildWith(init[i], parentId, status, kind) {
        var i :| 0 <= i < |init| && IsChildWith(init[i], parentId, status, kind);
        assert records[i] == init[i];
      }
      if exists i :: 0 <= i < |records| && IsChildWith(records[i], parentId, status, kind) {
        var i :| 0 <= i < |records| && IsChildWith(records[i], parentId, status, kind);
        if i < |init| {
          assert init[i] == records[i];
        }
      }
    }
  }

  /** Saving one more record adds one to the count exactly when it matches. */
  lemma CountChildrenAppend(
    records: seq<Transaction>, t: Transaction, parentId: nat, status: TransactionStatus, kind: TransactionType)
    ensures CountChildren(records + [t], parentId, status, kind) ==
      CountChildren(records, parentId, status, kind) + (if IsChildWith(t, parentId, status, kind) then 1 else 0)
  {
  }

  /** The durable transaction store: an append-only table of records. */
  class TransactionStore {
    var records: seq<Transaction>

    ghost predicate Valid()
      reads this
    {
      WellFormed(records)
    }

    constructor ()
      ensures Valid() && records == []
    {
      records := [];
    }

    /** saveTransaction for a new record: the store assigns the next id. */
    method Save(t: Transaction) returns (saved: Transaction)
      requires Valid()
      requires t.parentId.Some? ==> 1 <= t.parentId.value <= |records|
      modifies this
      ensures Valid()
      ensures saved == t.(id := |old(records)| + 1)
      ensures records == old(records) + [saved]
    {
      saved := t.(id := |records| + 1);
      records := records + [saved];
    }
  }
}
