# Order service: a Dafny model of its order aggregate

The order service is a small Spring CRUD service for customer orders. Each
order owns a list of lines (product, quantity, unit price). The service
creates, reads, replaces and deletes orders. It keeps each order's total
equal to the sum of `unitPrice × quantity` over its lines. The entity
stamps creation and update times from its persistence hooks.

This project models that slice. It has five modules:

- `JavaLang` (`java_lang.dfy`) holds Java's null references (`Nullable`) and the range of `Integer` (`Int32`). It also turns the exceptions the service can end with into values (`Failure`, `Result`, `Outcome`).
- `Dto` (`dto.dfy`) holds the request and response records (`OrderRequest`, `OrderItemDto`, `OrderResponse`). Their Bean Validation annotations become predicates (`RequestValid`, `ItemValid`). `@NotBlank` is modelled exactly: the string is not null, and `String.trim()` leaves at least one character.
- `Entity` (`order.dfy`) holds the `Order` entity as a class. Its mutable fields, setters and `@PrePersist`/`@PreUpdate` hooks are methods whose `modifies` frame is the one field, or the two timestamp fields, they write. `OrderItem` is a value, and `OrderRow` is the state of an order as stored.
- `Persistence` (`repository.dfy`) holds the repository as a class. Its state is a map from id to `OrderRow`, the identity counter and a logical clock that supplies "now" to the hooks. `Valid()` states what every stored row satisfies.
- `Service` (`order_service.dfy`) models `OrderServiceImpl`:
  - the stream that copies request lines into order lines (`CopyItems`);
  - the map/reduce total (`Reduce`, `Total`), proved equal to an independent recursive sum (`Sum`);
  - the projection `ToResponse`;
  - the `OrderService` class with `Create`, `Get`, `Update` and `Delete`, which keeps every stored total equal to the sum of its lines (`Valid()`).

The service is modelled on every request, not only on validated ones. A null
item list, a null element, or a line with a null price or quantity ends
`create` and `update` with a `NullPointer` failure. A null customer id is
refused by the store's NOT NULL column. In every failure case the store is
left unchanged.

Money is `java.math.BigDecimal`, and addition and multiplication on it are
exact. The model therefore uses `real`. Timestamps are ticks of a logical
clock that every save advances.

Three points where the code is looser than a reader might expect, and the
model follows the code:
- No annotation constrains the sign of `unitPrice` (OrderItemDto.java:11), so zero and negative prices are valid (`Dto.NonPositivePricesAreValid`).
- `OrderItemDto` declares item constraints that request validation never reaches (see Findings).
- The comment at Order.java:27 names NEW, PAID, SHIPPED and CANCELED, but the status field takes any string, and no transition is checked.

## Model

| member | source | states |
|---|---|---|
| `Dto.StripLeading` | src/main/java/com/leon/challenge5/dto/OrderRequest.java:8 | The front half of the `trim()` that `@NotBlank` applies: the result is a suffix of the input, every dropped character is at or below U+0020, and the result is empty or starts above U+0020 |
| `Dto.StripTrailing` | src/main/java/com/leon/challenge5/dto/OrderRequest.java:8 | The back half of `trim()`: a prefix of the input, only characters at or below U+0020 dropped, and the result is empty or ends above U+0020 |
| `Dto.NotBlankIff` | src/main/java/com/leon/challenge5/dto/OrderRequest.java:8 | `@NotBlank` holds exactly when the string is non-null and contains a character above U+0020, so null, empty and all-space strings fail |
| `Dto.RequestValid` | src/main/java/com/leon/challenge5/dto/OrderRequest.java:7-10 | A request is valid if and only if customerId is non-null and holds a character above U+0020 and items is non-null with at least one element; the elements' contents play no part |
| `Dto.ItemValid` | src/main/java/com/leon/challenge5/dto/OrderItemDto.java:8-12 | An item is valid if and only if productId is non-null and holds a character above U+0020, quantity is non-null and at least 1, and unitPrice is non-null, whatever its sign |
| `Dto.NonPositivePricesAreValid` | src/main/java/com/leon/challenge5/dto/OrderItemDto.java:11 | Zero and negative unit prices pass item validation: `@NotNull` is the price's only constraint |
| `Entity.Order.constructor` | src/main/java/com/leon/challenge5/model/Order.java:13-30 | A new order has a null id, customer, total, status and timestamps, and an empty item list |
| `Entity.Order.Load` | src/main/java/com/leon/challenge5/model/Order.java:13-30 | An order loaded from the store has exactly the stored row's field values |
| `Entity.Order.OnCreate` | src/main/java/com/leon/challenge5/model/Order.java:32-36 | `@PrePersist` sets createdAt to now and updatedAt equal to createdAt, and writes no other field |
| `Entity.Order.OnUpdate` | src/main/java/com/leon/challenge5/model/Order.java:38-41 | `@PreUpdate` sets updatedAt to now and writes nothing else, so createdAt is untouched |
| `Entity.Order.SetCustomerId` | src/main/java/com/leon/challenge5/model/Order.java:47 | Sets customerId to the argument; its frame is that field alone |
| `Entity.Order.SetItems` | src/main/java/com/leon/challenge5/model/Order.java:50 | Replaces the item list with the argument; its frame is that field alone |
| `Entity.Order.ClearItems` | src/main/java/com/leon/challenge5/service/impl/OrderServiceImpl.java:46 | `getItems().clear()` leaves the order with no lines and touches no other field |
| `Entity.Order.SetTotalAmount` | src/main/java/com/leon/challenge5/model/Order.java:53 | Sets totalAmount to the argument; its frame is that field alone |
| `Entity.Order.SetStatus` | src/main/java/com/leon/challenge5/model/Order.java:56 | Sets status to any value, null included, with no precondition and no transition rule; its frame is that field alone |
| `Persistence.OrderRepository.constructor` | src/main/java/com/leon/challenge5/model/Order.java:13-15 | An empty store whose identity column hands out 1 first |
| `Persistence.OrderRepository.FindById` | src/main/java/com/leon/challenge5/service/impl/OrderServiceImpl.java:37 | Returns an order exactly when the id is stored, and that order is new and equal to the stored row |
| `Persistence.OrderRepository.Save` | src/main/java/com/leon/challenge5/model/Order.java:13-41 | A null customerId, totalAmount or status fails and changes nothing. Otherwise an order without an id is inserted under the next id, with both timestamps set to now. An order with an id gets only updatedAt refreshed. Its row is written, the other rows are kept, and the store invariant holds |
| `Persistence.OrderRepository.DeleteById` | src/main/java/com/leon/challenge5/service/impl/OrderServiceImpl.java:62 | The row under the id is removed, every other row is kept, and a missing id is no error |
| `Service.CopyItems` | src/main/java/com/leon/challenge5/service/impl/OrderServiceImpl.java:22-29 | Succeeds exactly when no request element is null, and then yields one line per element, in order, each with the same productId, quantity and unitPrice; a null element gives a NullPointer failure |
| `Service.Lines` | src/main/java/com/leon/challenge5/service/impl/OrderServiceImpl.java:22-29 | A request's lines exist exactly when its item list and every element are non-null. A null list (dereferenced by `req.items().stream()`) or a null element ends `create` and `update` with NullPointer. Otherwise there is one line per element, in order, copied field for field |
| `Service.ResponseLinesEchoRequest` | src/main/java/com/leon/challenge5/service/impl/OrderServiceImpl.java:64-67 | Lines copied from a request and projected back into a response equal the request's items, element for element |
| `Service.Reduce` | src/main/java/com/leon/challenge5/service/impl/OrderServiceImpl.java:30-32 | The left-to-right reduction from an accumulator succeeds exactly when every line has a price and a quantity, and then equals the accumulator plus the reference sum |
| `Service.Total` | src/main/java/com/leon/challenge5/service/impl/OrderServiceImpl.java:30-32 | The order total is the sum of unitPrice × quantity when every line has both, and a NullPointer failure otherwise |
| `Service.TotalOfNothing` | src/main/java/com/leon/challenge5/service/impl/OrderServiceImpl.java:30-32 | The total of no lines is zero |
| `Service.SumAppend` | src/main/java/com/leon/challenge5/service/impl/OrderServiceImpl.java:56-58 | The sum over two concatenated line lists is the sum of their sums |
| `Service.SumNonNegative` | src/main/java/com/leon/challenge5/service/impl/OrderServiceImpl.java:56-58 | When no price and no quantity is negative, the total is not negative; no constraint makes prices non-negative, so this is the only guarantee |
| `Service.TotalExample` | src/main/java/com/leon/challenge5/service/impl/OrderServiceImpl.java:30-32 | Lines 2 × 10.50 and 1 × 5.00 total exactly 26.00 |
| `Service.ToResponse` | src/main/java/com/leon/challenge5/service/impl/OrderServiceImpl.java:64-70 | Copies id, customerId, totalAmount, status, createdAt and updatedAt verbatim, and maps the lines one to one and in order, so the response has as many lines as the order |
| `Service.OrderService.constructor` | src/main/java/com/leon/challenge5/service/impl/OrderServiceImpl.java:15-16 | The service wraps the given repository, whose stored totals already agree with their lines |
| `Service.OrderService.Create` | src/main/java/com/leon/challenge5/service/impl/OrderServiceImpl.java:18-34 | A rejected request fails with the exception the code throws and stores nothing. Otherwise a new order is stored under an id not used before, with the other orders kept. It has status "NEW", the request's customer and lines in order, the sum of its lines as total, and createdAt equal to updatedAt. The response is that order's projection |
| `Service.OrderService.Get` | src/main/java/com/leon/challenge5/service/impl/OrderServiceImpl.java:36-38 | Returns the projection of the stored order when the id exists and EntityNotFound otherwise, changing nothing |
| `Service.OrderService.Update` | src/main/java/com/leon/challenge5/service/impl/OrderServiceImpl.java:44-60 | A missing id fails with EntityNotFound before anything changes, and a rejected request also changes nothing. Otherwise customerId and the lines are exactly the request's, with no old line kept, and the total is recomputed from the new lines. id, status and createdAt are kept, updatedAt becomes strictly later, and the other orders are untouched |
| `Service.OrderService.Delete` | src/main/java/com/leon/challenge5/service/impl/OrderServiceImpl.java:62 | Nothing remains under the id, every other order is kept, and no existence check is made |
| `Service.CreateThenGet` | src/main/java/com/leon/challenge5/service/impl/OrderServiceImpl.java:18-38 | Reading a created order back returns exactly what create returned: status "NEW", equal timestamps, and the request's items in order |
| `Service.UpdateThenGet` | src/main/java/com/leon/challenge5/service/impl/OrderServiceImpl.java:44-60 | After an update, reading the order returns exactly the new request's items, however many lines it had before |
| `Service.DeleteThenGet` | src/main/java/com/leon/challenge5/service/impl/OrderServiceImpl.java:62 | After a delete, reading the id fails with EntityNotFound |
| `Service.ValidRequestWithoutPriceFails` | src/main/java/com/leon/challenge5/dto/OrderRequest.java:9 | A request that passes validation as written, with one line missing its price, makes create fail with a NullPointer failure |
| `Service.ValidRequestWithZeroQuantityStored` | src/main/java/com/leon/challenge5/dto/OrderRequest.java:9 | A request that passes validation as written, with a blank product and quantity 0, is accepted by create and stored with quantity 0 |
| `Service.CascadedValidationAdmitsOnlyAccepted` | src/main/java/com/leon/challenge5/dto/OrderItemDto.java:9-11 | With the item constraints applied to every element, every admitted request is carried through by create and update, and each stored line has a non-blank product and a quantity of at least 1 |

## Findings

| source | as written | input that shows it | evidently intended | confidence | as-written member | corrected member |
|---|---|---|---|---|---|---|
| src/main/java/com/leon/challenge5/dto/OrderRequest.java:9 | `@NotEmpty List<OrderItemDto> items` has no `@Valid`, so validating a request never checks the `@NotBlank`/`@NotNull`/`@Min(1)` constraints of the items | `{customerId: "c1", items: [{productId: "p1", quantity: 1, unitPrice: null}]}` passes validation, and create throws a NullPointerException (a server error instead of a validation error). `{customerId: "c1", items: [{productId: " ", quantity: 0, unitPrice: 1.00}]}` passes and is stored | every element is present and meets OrderItemDto's constraints (`List<@NotNull @Valid OrderItemDto>`) | high; not executed | `Service.ValidRequestWithoutPriceFails` | `Service.CascadedValidationAdmitsOnlyAccepted` (about `Dto.RequestValidCascaded`) |

The service itself validates nothing, so `Create` and `Update` are modelled on
every request. The corrected predicate is what the HTTP layer should admit.

## Left out

- The `list` operation (src/main/java/com/leon/challenge5/service/impl/OrderServiceImpl.java:40-42) is left out. It hands paging and ordering to Spring Data's `findAll(Pageable)`, which is not part of this model. Its only own step is applying `ToResponse` to each element.
- The HTTP layer (`OrderController`), the health endpoints and the dev-profile loader are left out. That includes routing, the page/size defaults and the mapping of failures to HTTP status codes.
- Wall-clock time is replaced by a logical clock. `OffsetDateTime.now()` can return the same instant twice, but the model's clock strictly increases with every save.
- Hibernate runs `@PreUpdate` only when it finds the entity dirty at flush. The model runs `OnUpdate` on every save of an order that already has an id.
- JPA mechanics are abstracted to "the store assigns a fresh id and each order owns its lines". That leaves out managed instances and the persistence context, cascade and orphan removal, the lines' back-reference to their order, and the unmodifiable list `toList()` returns. Update's in-place `clear()` of the managed collection is modelled as emptying the order's list.
- `Persistence.OrderRepository.Save` rejects a null NOT NULL column before anything runs, and keeps `nextId`. In Hibernate the lifecycle hook runs first. With IDENTITY generation the insert reaches the database before the database refuses the null, which can consume the generated id. Saving an entity whose id the store does not hold (a detached merge) is not modelled: `Save` requires a new entity or one loaded from its row.
- `Service.OrderService.Create`: the model hands out consecutive ids (`old(repo.nextId)`), but a refused insert may leave a gap in the database's identity sequence. Ids are also `nat`, while the source takes any `Long`; a negative id behaves like an absent one (`get` and `update` find nothing, and `delete` removes nothing).
- `Service.CreateThenGet`: the model's store returns an order's lines in the order they were saved, and its values exactly as saved. The database mapping promises neither: `items` is a `@OneToMany` list with no `@OrderColumn` or `@OrderBy` (Order.java:20-21), so a reload may return the lines in another order.
- `Service.UpdateThenGet`: the same holds after an update. Reading back gives the new request's lines in request order only because the model's store keeps that order; the database mapping does not promise it.
- Storage failures other than a NOT NULL refusal, transactions and concurrent updates are left out.
- `deleteById` on a missing id behaves differently across Spring Data versions. The model removes nothing and raises nothing.
- Getters are not separate members, because fields are read directly. `setItems(null)` is not modelled: the item list is always a sequence.
- `BigDecimal` scale is not modelled, because money is a `real`. So `26.0` and `26.00` are the same amount.
- Blankness follows `String.trim()`: characters at or below U+0020 count as blank. Unicode spaces above U+0020 count as content. The validator library is not part of this model.
- `OrderItem.java` is not part of this model. Its fields (productId, quantity, unitPrice, order) are inferred from the setters the service calls.
