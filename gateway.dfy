/** The Mollie gateway object: its API key, its per-instance catalog cache,
    and the webhook handler. The provider's two remote calls and the
    environment-variable parser are supplied when the gateway is built. */
module MollieGateway {
  import opened Wrappers
  import opened Transactions
  import opened Webhook
  import opened Catalog

  class Gateway {
    var apiKey: Option<string>
    /** Memoised catalog: `None` until a fetch has completed. */
    var paymentMethods: Option<seq<PaymentMethod>>
    var issuers: Option<seq<Issuer>>

    /** App::parseEnv. */
    const parseEnv: Option<string> -> Option<string>
    /** The provider's payment-method listing, which may throw. */
    const catalogRemote: Parameters -> Result<CatalogResponse, FetchError>
    /** The provider's fetchTransaction for the webhook body's `id`. */
    const transactionRemote: Option<string> -> ProviderResponse

    /** How many times each remote call has been made. */
    ghost var catalogFetches: nat
    ghost var transactionFetches: nat

    constructor (
      parseEnv: Option<string> -> Option<string>,
      catalogRemote: Parameters -> Result<CatalogResponse, FetchError>,
      transactionRemote: Option<string> -> ProviderResponse)
      ensures this.parseEnv == parseEnv && this.catalogRemote == catalogRemote
      ensures this.transactionRemote == transactionRemote
      ensures apiKey.None? && paymentMethods.None? && issuers.None?
      ensures catalogFetches == 0 && transactionFetches == 0
    {
      this.parseEnv := parseEnv;
      this.catalogRemote := catalogRemote;
      this.transactionRemote := transactionRemote;
      apiKey, paymentMethods, issuers := None, None, None;
      catalogFetches, transactionFetches := 0, 0;
    }

    /** getApiKey: the stored key, resolved through the environment when `parse` is set. */
    function GetApiKey(parse: bool := true): Option<string>
      reads this
    {
      if parse then parseEnv(apiKey) else apiKey
    }

    /** setApiKey: the raw getter then returns exactly what was set. */
    method SetApiKey(key: Option<string>)
      modifies this`apiKey
      ensures GetApiKey(false) == key
      ensures GetApiKey(true) == parseEnv(key)
    {
      apiKey := key;
    }

    /** fetchPaymentMethods: a cache hit returns the memoised list without a
        fetch; otherwise one fetch (with issuers included) is made. A thrown
        error leaves the cache as it was; a response fills the methods cache and,
        when it embeds a method list, rebuilds the issuers from it. */
    method FetchPaymentMethods(parameters: Parameters := map[]) returns (r: Result<seq<PaymentMethod>, FetchError>)
      modifies this`paymentMethods, this`issuers, this`catalogFetches
      ensures old(paymentMethods).Some? ==>
        && r == Ok(old(paymentMethods).value)
        && paymentMethods == old(paymentMethods) && issuers == old(issuers)
        && catalogFetches == old(catalogFetches)
      ensures old(paymentMethods).None? ==>
        && catalogFetches == old(catalogFetches) + 1
        && match catalogRemote(WithIssuers(parameters))
           case Err(e) =>
             r == Err(e) && paymentMethods == old(paymentMethods) && issuers == old(issuers)
           case Ok(response) =>
             && r == Ok(response.paymentMethods)
             && paymentMethods == Some(response.paymentMethods)
             && issuers == (if response.embeddedMethods.Some?
                            then Some(FlattenIssuers(response.embeddedMethods.value))
                            else old(issuers))
    {
      if paymentMethods.Some? {
        return Ok(paymentMethods.value);
      }
      catalogFetches := catalogFetches + 1;
      var sent := catalogRemote(WithIssuers(parameters));
      if sent.Err? {
        return Err(sent.error);
      }
      var response := sent.value;
      if response.embeddedMethods.Some? {
        CollectIssuers(response.embeddedMethods.value);
      }
      paymentMethods := Some(response.paymentMethods);
      return Ok(response.paymentMethods);
    }

    /** The loop of the methods fetch: reset the issuers to the empty list, then
        append each listed method's issuers, skipping methods without any. */
    method CollectIssuers(methods: seq<RawMethod>)
      modifies this`issuers
      ensures issuers == Some(FlattenIssuers(methods))
    {
      issuers := Some([]);
      for i := 0 to |methods|
        invariant issuers == Some(FlattenIssuers(methods[..i]))
      {
        var m := methods[i];
        FlattenStep(methods, i);
        if NoIssuers(m) {
          // a method without issuers contributes nothing to the flattening
          assert FlattenIssuers(methods[..i + 1]) == FlattenIssuers(methods[..i]);
          continue;
        }
        issuers := Some(issuers.value + MapIssuers(m.issuers.value, m.id));
      }
      assert methods[..|methods|] == methods;
    }

    /** fetchIssuers: a cache hit returns the memoised issuers without a fetch.
        Otherwise the issuers are reset to the empty list and the methods fetch
        fills them; a methods cache hit therefore yields the empty list, and a
        thrown error leaves the empty list memoised. */
    method FetchIssuers(parameters: Parameters := map[]) returns (r: Result<seq<Issuer>, FetchError>)
      modifies this`paymentMethods, this`issuers, this`catalogFetches
      ensures old(issuers).Some? ==>
        && r == Ok(old(issuers).value)
        && paymentMethods == old(paymentMethods) && issuers == old(issuers)
        && catalogFetches == old(catalogFetches)
      ensures old(issuers).None? && old(paymentMethods).Some? ==>
        && r == Ok([]) && issuers == Some([])
        && paymentMethods == old(paymentMethods)
        && catalogFetches == old(catalogFetches)
      ensures old(issuers).None? && old(paymentMethods).None? ==>
        && catalogFetches == old(catalogFetches) + 1
        && match catalogRemote(WithIssuers(parameters))
           case Err(e) =>
             r == Err(e) && issuers == Some([]) && paymentMethods == old(paymentMethods)
           case Ok(response) =>
             && paymentMethods == Some(response.paymentMethods)
             && issuers == Some(if response.embeddedMethods.Some?
                                then FlattenIssuers(response.embeddedMethods.value)
                                else [])
             && r == Ok(issuers.value)
    {
      if issuers.Some? {
        return Ok(issuers.value);
      }
      issuers := Some([]);
      var fetched := FetchPaymentMethods(parameters);
      if fetched.Err? {
        return Err(fetched.error);
      }
      return Ok(issuers.value);
    }

    /** processWebHook: resolve the parent by hash, skip when it already has a
        successful purchase child, fetch the provider's status, map it, and save
        at most one child. Every path acknowledges with "ok", and the store ends
        as Reconcile describes. */
    method ProcessWebHook(store: TransactionStore, transactionHash: Option<string>, bodyId: Option<string>, childHash: string)
      returns (ack: string, path: Path)
      requires store.Valid()
      modifies store, this`transactionFetches
      ensures store.Valid()
      ensures ack == "ok"
      ensures Reconciliation(path, store.records) ==
        Reconcile(old(store.records), transactionHash, transactionRemote(bodyId), childHash)
      ensures transactionFetches ==
        old(transactionFetches) + (if path.HashMissing? || path.DuplicatePurchase? then 0 else 1)
    {
      var transaction := FindByHash(store.records, transactionHash);
      if transaction.None? {
        return "ok", HashMissing;
      }
      var parent := transaction.value;

      var successfulPurchaseChildren := CountChildren(store.records, parent.id, Success, Purchase);
      if successfulPurchaseChildren > 0 {
        return "ok", DuplicatePurchase;
      }

      transactionFetches := transactionFetches + 1;
      var res := transactionRemote(bodyId);
      if !res.successful {
        return "ok", FetchUnsuccessful;
      }

      var child := ChildOf(parent, childHash);
      var status := MapStatus(res);
      if status.None? {
        return "ok", StatusUnmapped;
      }
      child := Settled(child, status.value, res);

      ghost var i :| 0 <= i < |store.records| && store.records[i] == parent &&
        forall j :: 0 <= j < i ==> store.records[j].hash != transactionHash.value;
      assert parent.id == i + 1;
      var saved := store.Save(child);
      return "ok", ChildSaved(saved);
    }
  }

  /** Two catalog fetches in a row: from an empty cache a successful first
      fetch is the only remote request and is what the second call returns;
      from a filled cache neither call fetches. */
  method FetchTwice(g: Gateway, first: Parameters, second: Parameters)
    returns (a: Result<seq<PaymentMethod>, FetchError>, b: Result<seq<PaymentMethod>, FetchError>)
    modifies g`paymentMethods, g`issuers, g`catalogFetches
    ensures g.catalogFetches <= old(g.catalogFetches) + 1 + (if a.Err? then 1 else 0)
    ensures a.Ok? ==> b == a && g.catalogFetches <= old(g.catalogFetches) + 1
    ensures old(g.paymentMethods).None? && a.Ok? ==> g.catalogFetches == old(g.catalogFetches) + 1
    ensures old(g.paymentMethods).Some? ==> g.catalogFetches == old(g.catalogFetches)
  {
    a := g.FetchPaymentMethods(first);
    b := g.FetchPaymentMethods(second);
  }
}
