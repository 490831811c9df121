/** The payment-method catalog: the shape of the provider's answer and how
    each method's embedded issuers are flattened into one list. */
module Catalog {
  import opened Wrappers

  /** Parameters of a catalog request. */
  type Parameters = map<string, string>

  datatype RawIssuer = RawIssuer(id: string, name: string)

  /** One entry of `_embedded.methods`; `issuers` is `None` when the key is missing. */
  datatype RawMethod = RawMethod(id: string, name: string, issuers: Option<seq<RawIssuer>>)

  datatype PaymentMethod = PaymentMethod(id: string, name: string)

  /** An issuer together with the id of the payment method that offers it. */
  datatype Issuer = Issuer(id: string, name: string, paymentMethod: string)

  /** The catalog response: `_embedded.methods` when present, and the payment
      methods the client library parses out of the response. */
  datatype CatalogResponse = CatalogResponse(embeddedMethods: Option<seq<RawMethod>>, paymentMethods: seq<PaymentMethod>)

  /** The exception a catalog request can throw. */
  datatype FetchError = InvalidRequest(message: string)

  /** The request data sent: the parameters with "include" set to "issuers". */
  function WithIssuers(parameters: Parameters): (data: Parameters)
    ensures "include" in data && data["include"] == "issuers"
    ensures data.Keys == parameters.Keys + {"include"}
    ensures forall k :: k in parameters && k != "include" ==> data[k] == parameters[k]
  {
    parameters["include" := "issuers"]
  }

  /** PHP's empty() on a method's `issuers`: missing or an empty list. */
  predicate NoIssuers(m: RawMethod)
  {
    m.issuers.None? || m.issuers.value == []
  }

  /** One Issuer per raw issuer, in order, each tagged with the method's id. */
  function MapIssuers(issuers: seq<RawIssuer>, methodId: string): (r: seq<Issuer>)
    ensures |r| == |issuers|
    ensures forall k :: 0 <= k < |r| ==> r[k] == Issuer(issuers[k].id, issuers[k].name, methodId)
  {
    if issuers == [] then []
    else [Issuer(issuers[0].id, issuers[0].name, methodId)] + MapIssuers(issuers[1..], methodId)
  }

  /** What one method contributes to the flattened list. */
  function IssuersOf(m: RawMethod): seq<Issuer>
  {
    if NoIssuers(m) then [] else MapIssuers(m.issuers.value, m.id)
  }

  function IssuerCount(m: RawMethod): nat
  {
    if m.issuers.None? then 0 else |m.issuers.value|
  }

  /** The issuers of all methods, method by method, in the order the fetch
      accumulates them. */
  function FlattenIssuers(methods: seq<RawMethod>): seq<Issuer>
  {
    if methods == [] then [] else IssuersOf(methods[0]) + FlattenIssuers(methods[1..])
  }

  function TotalIssuers(methods: seq<RawMethod>): nat
  {
    if methods == [] then 0 else IssuerCount(methods[0]) + TotalIssuers(methods[1..])
  }

  /** Flattening keeps every issuer: one triple per raw issuer. */
  lemma {:induction false} FlattenCount(methods: seq<RawMethod>)
    ensures |FlattenIssuers(methods)| == TotalIssuers(methods)
  {
    if methods != [] {
      FlattenCount(methods[1..]);
    }
  }

  /** Flattening preserves method order: the issuers of earlier methods come
      first. */
  lemma {:induction false} FlattenAppend(a: seq<RawMethod>, b: seq<RawMethod>)
    ensures FlattenIssuers(a + b) == FlattenIssuers(a) + FlattenIssuers(b)
  {
    if a == [] {
      assert a + b == b;
    } else {
      assert (a + b)[0] == a[0];
      assert (a + b)[1..] == a[1..] + b;
      FlattenAppend(a[1..], b);
    }
  }

  /** A single method contributes exactly its own issuers. */
  lemma FlattenSingle(m: RawMethod)
    ensures FlattenIssuers([m]) == IssuersOf(m)
  {
  }

  /** One more method of the loop adds that method's issuers at the end. */
  lemma FlattenStep(methods: seq<RawMethod>, i: nat)
    requires i < |methods|
    ensures FlattenIssuers(methods[..i + 1]) == FlattenIssuers(methods[..i]) + IssuersOf(methods[i])
  {
    assert methods[..i + 1] == methods[..i] + [methods[i]];
    FlattenAppend(methods[..i], [methods[i]]);
    FlattenSingle(methods[i]);
  }

  /** An issuer is in the flattened list exactly when some method lists it. */
  lemma {:induction false} FlattenMembership(methods: seq<RawMethod>, x: Issuer)
    ensures x in FlattenIssuers(methods) <==>
      exists i, k :: 0 <= i < |methods| && methods[i].issuers.Some? && 0 <= k < |methods[i].issuers.value| &&
        x == Issuer(methods[i].issuers.value[k].id, methods[i].issuers.value[k].name, methods[i].id)
  {
    if methods != [] {
      var first, rest := methods[0], methods[1..];
      FlattenMembership(rest, x);
      if x in IssuersOf(first) {
        var k :| 0 <= k < |IssuersOf(first)| && IssuersOf(first)[k] == x;
      }
      if x in FlattenIssuers(rest) {
        var i, k :| 0 <= i < |rest| && rest[i].issuers.Some? && 0 <= k < |rest[i].issuers.value| &&
          x == Issuer(rest[i].issuers.value[k].id, rest[i].issuers.value[k].name, rest[i].id);
        assert methods[i + 1] == rest[i];
      }
      if exists i, k :: 0 <= i < |methods| && methods[i].issuers.Some? && 0 <= k < |methods[i].issuers.value| &&
          x == Issuer(methods[i].issuers.value[k].id, methods[i].issuers.value[k].name, methods[i].id)
      {
        var i, k :| 0 <= i < |methods| && methods[i].issuers.Some? && 0 <= k < |methods[i].issuers.value| &&
          x == Issuer(methods[i].issuers.value[k].id, methods[i].issuers.value[k].name, methods[i].id);
        if i > 0 {
          assert rest[i - 1] == methods[i];
        } else {
          assert IssuersOf(first)[k] == x;
        }
      }
    }
  }
}
