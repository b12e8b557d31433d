/** The request and response records of the order API and the Bean
    Validation constraints declared on them, read as predicates. */
module Dto {
  import opened JavaLang

  /** A java.math.BigDecimal amount. BigDecimal addition and multiplication
      are exact, so the amount is a real number, never a float. */
  type Money = real

  /** An OffsetDateTime, modelled as the tick of a logical clock. */
  type Tick = nat

  /** One line of a request or response: product, quantity, unit price. */
  datatype OrderItemDto = OrderItemDto(
    productId: Nullable<string>,
    quantity: Nullable<Int32>,
    unitPrice: Nullable<Money>)

  /** The body of a create or update request. The list may hold null
      elements: nothing in the request's constraints looks inside it. */
  datatype OrderRequest = OrderRequest(
    customerId: Nullable<string>,
    items: Nullable<seq<Nullable<OrderItemDto>>>)

  /** What every read or write of an order returns. */
  datatype OrderResponse = OrderResponse(
    id: Nullable<nat>,
    customerId: Nullable<string>,
    items: seq<OrderItemDto>,
    totalAmount: Nullable<Money>,
    status: Nullable<string>,
    createdAt: Nullable<Tick>,
    updatedAt: Nullable<Tick>)

  // ---------------------------------------------------------------------
  // @NotBlank: the string is not null and String.trim() leaves something.
  // trim() removes leading and trailing characters at or below U+0020.
  // ---------------------------------------------------------------------

  /** The string without its leading characters at or below U+0020. */
  function StripLeading(s: string): (r: string)
    ensures |r| <= |s| && r == s[|s| - |r|..]
    ensures forall i :: 0 <= i < |s| - |r| ==> s[i] <= ' '
    ensures r == [] || r[0] > ' '
  {
    if s == [] || s[0] > ' ' then s else StripLeading(s[1..])
  }

  /** The string without its trailing characters at or below U+0020. */
  function StripTrailing(s: string): (r: string)
    ensures |r| <= |s| && r == s[..|r|]
    ensures forall i :: |r| <= i < |s| ==> s[i] <= ' '
    ensures r == [] || r[|r| - 1] > ' '
  {
    if s == [] || s[|s| - 1] > ' ' then s else StripTrailing(s[..|s| - 1])
  }

  /** java.lang.String.trim. */
  function Trim(s: string): (r: string)
  {
    StripTrailing(StripLeading(s))
  }

  predicate NotBlank(s: Nullable<string>)
  {
    s.NonNull? && Trim(s.value) != []
  }

  /** A string passes @NotBlank exactly when it is not null and holds a
      character above U+0020; the empty and all-space strings fail. */
  lemma NotBlankIff(s: Nullable<string>)
    ensures NotBlank(s) <==> s.NonNull? && exists i :: 0 <= i < |s.value| && s.value[i] > ' '
  {
  }

  // ---------------------------------------------------------------------
  // The other constraints, one predicate per annotation.
  // ---------------------------------------------------------------------

  /** @NotEmpty on a list: not null and at least one element. */
  predicate NotEmpty<T>(xs: Nullable<seq<T>>)
  {
    xs.NonNull? && |xs.value| > 0
  }

  /** @Min(1): a null value passes; only @NotNull rejects it. */
  predicate AtLeastOne(q: Nullable<Int32>)
  {
    q.Null? || q.value >= 1
  }

  /** The constraints of OrderItemDto: @NotBlank productId,
      @NotNull @Min(1) quantity, @NotNull unitPrice. An item is rejected
      exactly when productId is null or blank, quantity is null or below 1,
      or unitPrice is null; the price has no sign constraint. */
  predicate ItemValid(d: OrderItemDto): (ok: bool)
    ensures ok <==>
      && d.productId.NonNull?
      && (exists i :: 0 <= i < |d.productId.value| && d.productId.value[i] > ' ')
      && d.quantity.NonNull? && d.quantity.value >= 1
      && d.unitPrice.NonNull?
  {
    NotBlankIff(d.productId);
    NotBlank(d.productId) && d.quantity.NonNull? && AtLeastOne(d.quantity) && d.unitPrice.NonNull?
  }

  /** The constraints of OrderRequest: @NotBlank customerId, @NotEmpty items.
      The items list carries no @Valid, so validating a request never looks
      at its elements: a request is rejected exactly when customerId is null
      or blank, or items is null or empty. */
  predicate RequestValid(req: OrderRequest): (ok: bool)
    ensures ok <==>
      && req.customerId.NonNull?
      && (exists i :: 0 <= i < |req.customerId.value| && req.customerId.value[i] > ' ')
      && req.items.NonNull?
      && |req.items.value| >= 1
  {
    NotBlankIff(req.customerId);
    NotBlank(req.customerId) && NotEmpty(req.items)
  }

  /** What validation of a request admits once every element is also
      checked: no element is null and each satisfies ItemValid, as
      `List<@NotNull @Valid OrderItemDto>` would demand. */
  predicate RequestValidCascaded(req: OrderRequest)
  {
    RequestValid(req) &&
    forall i :: 0 <= i < |req.items.value| ==>
      req.items.value[i].NonNull? && ItemValid(req.items.value[i].value)
  }

  /** Zero and negative unit prices are valid. */
  lemma NonPositivePricesAreValid(p: string, q: Int32, price: Money)
    requires exists i :: 0 <= i < |p| && p[i] > ' '
    requires q >= 1 && price <= 0.0
    ensures ItemValid(OrderItemDto(NonNull(p), NonNull(q), NonNull(price)))
  {
    NotBlankIff(NonNull(p));
  }
}
