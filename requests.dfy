/** The additions the gateway makes to an outgoing payment request. */
module Requests {
  import opened Wrappers

  /** A payment request as a key/value map. */
  type RequestMap = map<string, string>

  /** PHP truthiness of a nullable string: null, "" and "0" are false. */
  predicate Truthy(s: Option<string>)
  {
    s.Some? && s.value != "" && s.value != "0"
  }

  /** The two fields of the offsite payment form that reach the request. */
  datatype PaymentForm = PaymentForm(paymentMethod: Option<string>, issuer: Option<string>)

  /** The part of an order the request reads. */
  datatype Order = Order(email: Option<string>)

  /** Key `key` is bound the same way in both maps (or absent from both). */
  predicate Agrees(a: RequestMap, b: RequestMap, key: string)
  {
    (key in a <==> key in b) && (key in a ==> a[key] == b[key])
  }

  /** `after` sets `key` to `value` when the value is truthy and otherwise
      leaves `key` as it was in `before`. */
  predicate SetWhenTruthy(before: RequestMap, after: RequestMap, key: string, value: Option<string>)
  {
    if Truthy(value) then key in after && after[key] == value.value else Agrees(before, after, key)
  }

  function FormPaymentMethod(paymentForm: Option<PaymentForm>): Option<string>
  {
    if paymentForm.Some? then paymentForm.value.paymentMethod else None
  }

  function FormIssuer(paymentForm: Option<PaymentForm>): Option<string>
  {
    if paymentForm.Some? then paymentForm.value.issuer else None
  }

  /** populateRequest: the request passed by reference comes back with
      `paymentMethod` and `issuer` set from a truthy form value, and every
      other key as it was. */
  method PopulateRequest(request: RequestMap, paymentForm: Option<PaymentForm>) returns (populated: RequestMap)
    ensures SetWhenTruthy(request, populated, "paymentMethod", FormPaymentMethod(paymentForm))
    ensures SetWhenTruthy(request, populated, "issuer", FormIssuer(paymentForm))
    ensures forall k :: k != "paymentMethod" && k != "issuer" ==> Agrees(request, populated, k)
    ensures populated.Keys <= request.Keys + {"paymentMethod", "issuer"}
  {
    populated := request;
    if paymentForm.Some? {
      var form := paymentForm.value;
      if Truthy(form.paymentMethod) {
        populated := populated["paymentMethod" := form.paymentMethod.value];
      }
      if Truthy(form.issuer) {
        populated := populated["issuer" := form.issuer.value];
      }
    }
  }

  /** The order's email, when there is an order. */
  function OrderEmail(order: Option<Order>): Option<string>
  {
    if order.Some? then order.value.email else None
  }

  /** createPaymentRequest on top of the base request: `billingEmail` is set
      from a truthy order email, and every other key is the base's. */
  function CreatePaymentRequest(base: RequestMap, order: Option<Order>): (request: RequestMap)
    ensures SetWhenTruthy(base, request, "billingEmail", OrderEmail(order))
    ensures forall k :: k != "billingEmail" ==> Agrees(base, request, k)
    ensures !Truthy(OrderEmail(order)) ==> request == base
  {
    var email := OrderEmail(order);
    if Truthy(email) then base["billingEmail" := email.value] else base
  }
}
