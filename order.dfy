/** The Order entity: an aggregate root whose fields change through
    setters and through the persistence lifecycle hooks. */
module Entity {
  import opened JavaLang
  import opened Dto

  /** One line owned by an order. The back-reference to the owning order is
      implied by the line being held in that order's item list. */
  datatype OrderItem = OrderItem(
    productId: Nullable<string>,
    quantity: Nullable<Int32>,
    unitPrice: Nullable<Money>)

  /** The persisted state of an order: the values of its fields as the store
      keeps them. */
  datatype OrderRow = OrderRow(
    id: Nullable<nat>,
    customerId: Nullable<string>,
    items: seq<OrderItem>,
    totalAmount: Nullable<Money>,
    status: Nullable<string>,
    createdAt: Nullable<Tick>,
    updatedAt: Nullable<Tick>)

  class Order {
    var id: Nullable<nat>
    var customerId: Nullable<string>
    var items: seq<OrderItem>
    var totalAmount: Nullable<Money>
    var status: Nullable<string>   // free text; "NEW", "PAID", "SHIPPED", "CANCELED" by convention
    var createdAt: Nullable<Tick>
    var updatedAt: Nullable<Tick>

    /** A new, unsaved order: every field null except an empty item list. */
    constructor ()
      ensures id.Null? && customerId.Null? && totalAmount.Null? && status.Null?
      ensures createdAt.Null? && updatedAt.Null?
      ensures items == []
    {
      id, customerId, totalAmount, status := Null, Null, Null, Null;
      createdAt, updatedAt := Null, Null;
      items := [];
    }

    /** An order as the store hands it back: its fields are those of the row. */
    constructor Load(row: OrderRow)
      ensures Snapshot() == row
    {
      id, customerId, items, totalAmount := row.id, row.customerId, row.items, row.totalAmount;
      status, createdAt, updatedAt := row.status, row.createdAt, row.updatedAt;
    }

    /** The fields of the order, as the store writes them. */
    function Snapshot(): OrderRow
      reads this
    {
      OrderRow(id, customerId, items, totalAmount, status, createdAt, updatedAt)
    }

    /** @PrePersist: both timestamps take the current time. */
    method OnCreate(now: Tick)
      modifies this`createdAt, this`updatedAt
      ensures createdAt == NonNull(now) && updatedAt == createdAt
    {
      createdAt := NonNull(now);
      updatedAt := createdAt;
    }

    /** @PreUpdate: only updatedAt moves to the current time. */
    method OnUpdate(now: Tick)
      modifies this`updatedAt
      ensures updatedAt == NonNull(now)
    {
      updatedAt := NonNull(now);
    }

    // Each setter's frame is its own field: no setter can touch id,
    // createdAt or updatedAt, and none changes another field.

    method SetCustomerId(c: Nullable<string>)
      modifies this`customerId
      ensures customerId == c
    {
      customerId := c;
    }

    method SetItems(xs: seq<OrderItem>)
      modifies this`items
      ensures items == xs
    {
      items := xs;
    }

    /** getItems().clear(): empties the list the order holds. */
    method ClearItems()
      modifies this`items
      ensures items == []
    {
      items := [];
    }

    method SetTotalAmount(t: Nullable<Money>)
      modifies this`totalAmount
      ensures totalAmount == t
    {
      totalAmount := t;
    }

    /** Accepts any status, null included; no transition is checked. */
    method SetStatus(s: Nullable<string>)
      modifies this`status
      ensures status == s
    {
      status := s;
    }
  }
}
