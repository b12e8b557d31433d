/** The order repository: the stored rows keyed by id, the identity counter
    that hands out ids, and a logical clock that supplies "now" to the
    entity's lifecycle hooks. */
module Persistence {
  import opened JavaLang
  import opened Dto
  import opened Entity

  /** The NOT NULL columns of the orders table: customerId, totalAmount and
      status. */
  predicate Storable(row: OrderRow)
  {
    row.customerId.NonNull? && row.totalAmount.NonNull? && row.status.NonNull?
  }

  /** What holds of every row stored under key k: the key is an id already
      handed out, the row carries it, the NOT NULL columns are filled, and
      the row was created no later than its last update, which is in the
      past of the clock. */
  predicate WellStored(k: nat, row: OrderRow, nextId: nat, clock: Tick)
  {
    && 0 < k < nextId
    && row.id == NonNull(k)
    && Storable(row)
    && row.createdAt.NonNull? && row.updatedAt.NonNull?
    && row.createdAt.value <= row.updatedAt.value < clock
  }

  class OrderRepository {
    var rows: map<nat, OrderRow>
    var nextId: nat   // identity generation: the id the next insert receives
    var clock: Tick   // the current time; every save advances it

    ghost predicate Valid()
      reads this
    {
      0 < nextId && forall k :: k in rows ==> WellStored(k, rows[k], nextId, clock)
    }

    /** An empty table whose identity column starts at 1. */
    constructor ()
      ensures Valid()
      ensures rows == map[] && nextId == 1 && clock == 0
    {
      rows, nextId, clock := map[], 1, 0;
    }

    /** findById: a new entity loaded from the row under id, or none. */
    method FindById(id: nat) returns (o: Order?)
      requires Valid()
      ensures (o != null) <==> id in rows
      ensures o != null ==> fresh(o) && o.Snapshot() == rows[id]
    {
      if id in rows {
        o := new Order.Load(rows[id]);
      } else {
        o := null;
      }
    }

    /** save: an order without an id is inserted under a fresh id after
        @PrePersist; an order with an id overwrites its row after
        @PreUpdate. A null in a NOT NULL column fails and changes nothing. */
    method Save(o: Order) returns (r: Outcome)
      requires Valid()
      requires o.id.NonNull? ==> o.id.value in rows && o.createdAt == rows[o.id.value].createdAt
      modifies this, o
      ensures Valid()
      ensures !Storable(old(o.Snapshot())) ==> r == Fail(NotNullViolation) && unchanged(this, o)
      ensures Storable(old(o.Snapshot())) ==>
        var k := if old(o.id).Null? then old(nextId) else old(o.id).value;
        && r == Pass
        && o.id == NonNull(k)
        && o.createdAt == (if old(o.id).Null? then NonNull(old(clock)) else old(o.createdAt))
        && o.updatedAt == NonNull(old(clock))
        && o.customerId == old(o.customerId) && o.items == old(o.items)
        && o.totalAmount == old(o.totalAmount) && o.status == old(o.status)
        && rows == old(rows)[k := o.Snapshot()]
        && nextId == (if old(o.id).Null? then old(nextId) + 1 else old(nextId))
        && clock == old(clock) + 1
    {
      if !Storable(o.Snapshot()) {
        return Fail(NotNullViolation);
      }
      if o.id.Null? {
        o.OnCreate(clock);
        o.id := NonNull(nextId);
        nextId := nextId + 1;
      } else {
        o.OnUpdate(clock);
      }
      rows := rows[o.id.value := o.Snapshot()];
      clock := clock + 1;
      r := Pass;
    }

    /** deleteById: the row under id is gone; every other row stays. */
    method DeleteById(id: nat)
      requires Valid()
      modifies this`rows
      ensures Valid()
      ensures rows == old(rows) - {id}
    {
      rows := rows - {id};
    }
  }
}
